# beautify-club core, modelled in Dafny

beautify-club is a beauty-salon marketplace built with Next.js. Clients book services at salons, partners register salons and list services, and admins approve partners and manage subscription plans. Identity comes from Clerk, and Clerk's public metadata caches each user's role. Payments come from Stripe, and Prisma stores the data.

This project models the parts of the system that decide what happens:

- the API route handlers: booking, subscription cancel, the Stripe and Clerk webhooks, subscription plans, the first-user check, role check and role update, partner registration, approval and rejection, and partner services;
- the user sync helper;
- three client components: the booking card, the navigation bar and the partner registration form.

## How the model is built

- **One value for the whole store.** The database and the identity provider's metadata form a single value, `Model.Db`. It holds:
  - the users, salons, services, appointments, subscriptions, payments and plans;
  - each user's cached metadata;
  - the next fresh record id.
- **One function per route.** Each route handler is a pure function from the store, the caller and the request to a `Step`: the new store plus the reply, which is a status code with a body or with detail messages. Each function sits in its own module and tests its guards in the same order as the handler.
- **Lemmas on those functions.** They state:
  - the refusals, as status code and condition;
  - the effect of a successful call;
  - that a refusal leaves the store unchanged, and which tables a call leaves alone;
  - idempotence, or the lack of it;
  - that the store invariant `Model.Valid` is preserved. It says:
    - Clerk ids are unique;
    - each user owns at most one salon;
    - plan names are unique;
    - each slot has at most one live appointment;
    - ids are distinct and below the counter.
- **One class for the running backend.** `Backend.Store` holds the tables as fields. It has one method per route that runs the handler's guards step by step and updates the fields. Each method's `ensures` ties its new state and reply to the route function, and says that `Valid()` still holds afterwards.
- **The client components** are pure functions, except the time-slot loop. That loop is a `while` method proved against the function that specifies it. Both carry the corrected guard for a negative duration and offer no slots, where the loop as written never stops (see "## Findings").

## Model

| member | source | states |
|---|---|---|
| Common.TrimStart | app/api/webhook/route.ts:66 | the result is a suffix of the input, everything cut off is white space, and the result does not begin with white space |
| Common.TrimEnd | app/api/webhook/route.ts:66 | the result is a prefix of the input, everything cut off is white space, and the result does not end with white space |
| Common.TrimEnds | app/api/webhook/route.ts:66 | a non-empty trimmed string starts and ends with a non-space character |
| Common.TrimIdempotent | lib/clerk.ts:14-18 | trimming twice gives the same result as trimming once |
| Common.TrimEmptyIff | lib/clerk.ts:14-18 | a string trims to empty exactly when every character is white space |
| Common.DisplayName | lib/clerk.ts:14-18 | the stored name is never empty: it is the trimmed "first last", or "Usuário" when that trims to empty |
| Common.NamelessUserGetsDefault | app/api/webhook/route.ts:66 | a user with neither a first nor a last name is stored as "Usuário" |
| Common.IdText | app/api/first-user-check/route.ts:34 | the metadata userId is a non-empty string of decimal digits |
| Model.RoleName | app/api/admin/update-user-role/route.ts:31-33 | each role's stored spelling passes the role whitelist and parses back to that role |
| Model.ParseRole | app/api/admin/update-user-role/route.ts:31-33 | a role string is refused exactly when it is none of "CLIENT", "PARTNER", "ADMIN" |
| Model.ParseRoleInverse | app/api/admin/update-user-role/route.ts:31-33 | a role the whitelist accepts is spelled exactly as that role's name |
| Model.RoleMeta | app/api/admin/update-user-role/route.ts:52-57 | the metadata written holds exactly the keys role and userId: the role's name and the id as text |
| Model.FirstIndex | app/api/appointments/route.ts:19-27 | `findFirst`: the index found satisfies the filter and no earlier record does; no index means no record satisfies it |
| Model.FirstIndexAt | app/api/user/check-role/route.ts:15-23 | when record k matches and no earlier record does, the lookup returns k |
| Model.UserByClerkAfterUpdate | app/api/webhook/route.ts:95-103 | rewriting a user row without changing its Clerk id leaves the lookup by Clerk id on that row |
| Model.EmptyDbValid | app/api/first-user-check/route.ts:16-18 | the empty store satisfies the store invariant |
| Model.IdsGrow | app/api/appointments/route.ts:61-69 | ids below the counter stay below a larger counter |
| Model.IdsAppend | app/api/appointments/route.ts:61-69 | appending a record that takes the counter's value keeps ids distinct and below the advanced counter |
| Model.IdsUpdate | app/api/partner/approve/route.ts:42-45 | rewriting a record in place without changing its id keeps ids distinct and below the counter |
| Model.IdsRemove | app/api/webhook/route.ts:125-141 | deleting a record keeps ids distinct and below the counter |
| Model.IdsFreshGrow | app/api/stripe/webhook/route.ts:41-64 | every table's ids stay fresh when the counter advances |
| Model.UserByClerkUnique | app/api/webhook/route.ts:49-81 | with unique Clerk ids, the lookup returns the only row with that Clerk id |
| Model.AddUser | lib/clerk.ts:43-61 | a new user row is appended and the counter advances |
| Model.AddUserKeepsValid | lib/clerk.ts:43-61 | appending a user whose Clerk id is new, with the counter's value as id, preserves the store invariant |
| Model.UpdateUserKeepsValid | app/api/admin/update-user-role/route.ts:46-57 | rewriting a user row in place, keeping its id and Clerk id, preserves the store invariant whatever the metadata becomes |
| Model.RemoveUserKeepsValid | app/api/webhook/route.ts:125-141 | deleting a user row preserves the store invariant |
| Model.AddPlanKeepsValid | app/api/admin/subscription-plans/route.ts:93-117 | appending a plan with a name no stored plan has, with the counter's value as id, preserves the store invariant |
| Model.UpdateSalonKeepsValid | app/api/partner/reject/route.ts:39-45 | rewriting a salon in place, keeping its id and owner, preserves the store invariant whatever the metadata becomes |
| BookingCard.ParseClock | components/booking-card.tsx:44-45 | a "HH:MM" that reads as a time of day is a minute count within [0, 1440] |
| BookingCard.FormatClock | components/booking-card.tsx:48 | `toTimeString().slice(0, 5)` is a five-character label with ':' in the middle |
| BookingCard.DigitCharValue | components/booking-card.tsx:48 | a printed digit reads back as the same digit |
| BookingCard.ParseFormatClock | components/booking-card.tsx:44-48 | formatting a time of day and reading the label back gives the same time |
| BookingCard.FormatParseClock | components/booking-card.tsx:44-48 | a label that reads as a time before midnight is the canonical label of that time |
| BookingCard.SlotStartsAt | components/booking-card.tsx:47-50 | slot i starts i durations after the start time |
| BookingCard.SlotStartsBelowEnd | components/booking-card.tsx:47-50 | every slot starts before the end time, there is none when start is not before end, and one more step would reach the end |
| BookingCard.SlotStartsShape | components/booking-card.tsx:47-50 | slot i starts i durations after the start and before the end, and the slot count is the least that reaches the end |
| BookingCard.SlotsEvenlySpaced | components/booking-card.tsx:47-50 | consecutive slots are exactly one duration apart |
| BookingCard.LastSlotMayOverrun | components/booking-card.tsx:47-50 | only a slot's start is compared with the end time, so the last slot may run past it: 09:00 to 10:00 in steps of 45 minutes gives 09:00 and 09:45 |
| BookingCard.FindService | components/booking-card.tsx:36 | the index found holds the selected id; no index means nothing is selected or no service has that id |
| BookingCard.SlotWindow | components/booking-card.tsx:39-45 | after the "09:00", "18:00" and 60-minute fall-backs, a window that reads as times of day starts at or after midnight, ends by the next midnight, and has a non-zero step |
| BookingCard.TimeSlots | components/booking-card.tsx:35-53 | no selected service gives no slots, and every slot is a five-character "HH:MM" label |
| BookingCard.Labels | components/booking-card.tsx:48 | one label per time, each the formatted time |
| BookingCard.GenerateTimeSlots | components/booking-card.tsx:35-53 | the loop collects exactly the slot list of the selected service; for a negative duration it carries the corrected guard and returns no slots |
| BookingCard.DefaultSlots | components/booking-card.tsx:39-41 | a service with no times and a zero duration offers the nine hourly slots 09:00 to 17:00 |
| BookingCard.DefaultLabels | components/booking-card.tsx:39-50 | from 09:00 to 18:00 in steps of an hour the labels are "09:00" to "17:00" |
| BookingCard.SlotsWithinWindow | components/booking-card.tsx:47-50 | offered slot i reads back as the time start + i durations, which lies within the service's window |
| BookingCard.NegativeDurationNeverStops | components/booking-card.tsx:47-50 | the loop as written, with a negative duration and start before end: after any number k of passes the guard still holds, the clock is k durations past the start, and k labels have been pushed, so the loop never stops |
| BookingCard.LoopAsWrittenStops | components/booking-card.tsx:47-50 | for a positive duration within one day, the loop as written stops after one pass per slot, having pushed exactly the labels of the slot list |
| BookingCard.LoopAsWrittenPrefix | components/booking-card.tsx:47-50 | after k passes of the loop as written, the labels of the first k slots have been pushed and the clock stands at the next slot, or at or past the end once all are pushed |
| BookingCard.LoopPass | components/booking-card.tsx:48-49 | one pass of the body pushes the clock's label and moves the clock by the duration |
| BookingCard.LastSlotThenEnd | components/booking-card.tsx:47-50 | one duration after the last slot the clock is at or past the end |
| BookingCard.SlotStartsInDay | components/booking-card.tsx:47-50 | within one day every slot starts at or after the start time and before the end time |
| BookingCard.LabelsPrefix | components/booking-card.tsx:48 | labelling one more time appends that time's label |
| BookingCard.NegativeDurationNoSlots | components/booking-card.tsx:47-50 | the corrected slot list is empty for a negative duration |
| BookingCard.IsDateAvailable | components/booking-card.tsx:55-68 | a date is refused exactly when the selected service's stored days parse to a list without the date's getDay number, or to a string without its digit; missing, unparseable or other days allow every date |
| BookingCard.WeekdayFilterExample | components/booking-card.tsx:60-64 | with days [1, 3, 5], a date whose getDay number is 2 is refused and one whose getDay number is 3 is bookable |
| BookingCard.DayItems | components/booking-card.tsx:60 | the items a stored list of weekday numbers parses to, one number per day |
| BookingCard.DayDigits | components/booking-card.tsx:60 | a stored string of weekday digits, one digit per day |
| BookingCard.AvailableOnListedDays | components/booking-card.tsx:55-68 | for any services, selection and day: when the selected service's days are a list of weekday numbers, or a string of weekday digits, a date is bookable exactly when its getDay number is among them |
| BookingCard.HandleBooking | components/booking-card.tsx:70-114 | the checks in order: signed out goes to sign-in; a missing service, date or time is incomplete; an unavailable date is refused; otherwise the request names the selected service, the salon and the instant |
| BookingCard.BookingPrice | components/booking-card.tsx:113 | the price sent is the selected service's base price, or 0 when no service matches |
| Navbar.MenuRole | components/navbar.tsx:30-31 | the menu role is never empty: the metadata role, or "CLIENT" when that is missing or empty |
| Navbar.Redirect | components/navbar.tsx:54-61 | the exact condition for each of the three redirects; a redirect needs a loaded user with a metadata role |
| Navbar.RedirectIdempotent | components/navbar.tsx:54-61 | a redirect target never redirects again for the same role |
| Navbar.PrefixNotSegment | components/navbar.tsx:55-59 | the prefix test treats "/administrator" as an admin page |
| Navbar.LogoTarget | components/navbar.tsx:77-93 | signed out goes to "/"; ADMIN and PARTNER go to their dashboards; everyone else goes to "/dashboard" |
| Navbar.NavLinks | components/navbar.tsx:95-219 | nothing before loading; sign-in and sign-up when signed out; when signed in, five links, or six for ADMIN, starting with the logo's target for the role and ending with "/profile" |
| Navbar.MissingRoleIsClient | components/navbar.tsx:30-31 | a user without a role gets the client menu and logo target, and no redirect |
| Navbar.ClientLinksStayHome | components/navbar.tsx:189-219 | every link a CLIENT is shown, the profile included, lies outside "/admin" and "/partner", so following it never redirects |
| Navbar.RoleLinksStayHome | components/navbar.tsx:123-181 | every ADMIN and PARTNER link except the profile lies under the role's own prefix, so following it never redirects |
| PartnerForm.FormIssues | components/partner-registration-form.tsx:16-25 | no issues exactly when every minimum length holds and the PIX key type is one of the five allowed |
| PartnerForm.FormValid | components/partner-registration-form.tsx:16-25 | the form is valid exactly when every minimum length holds and the key type is allowed |
| PartnerForm.DefaultValuesInvalid | components/partner-registration-form.tsx:39-46 | the initial values fail validation with five issues, one per text field |
| PartnerForm.CoordinatesOptional | components/partner-registration-form.tsx:19-20 | whether coordinates are given never changes the verdict |
| PartnerForm.CoordinateOr | components/partner-registration-form.tsx:56-59 | a missing or zero coordinate is replaced by the São Paulo default; any other is kept |
| PartnerForm.RequestBody | components/partner-registration-form.tsx:66-76 | the body carries the form's fields, the user id and the defaulted coordinates |
| PartnerForm.BodyCoordinatesNonZero | components/partner-registration-form.tsx:56-71 | a submitted body never carries a zero coordinate |
| Ordering.PrependKeepsOrder | app/api/admin/subscription-plans/route.ts:168-171 | a record no older than any in a newest-first list may head it |
| Ordering.InsertedBelow | app/api/admin/subscription-plans/route.ts:168-171 | the head of a newest-first list still heads it after a younger record is inserted behind it |
| Ordering.InsertByKey | app/api/admin/subscription-plans/route.ts:168-171 | inserting into a newest-first list keeps it newest-first, with the same records plus the new one |
| Ordering.NewestFirst | app/api/admin/subscription-plans/route.ts:168-171 | `orderBy: { created_at: 'desc' }`: the result is newest-first and a permutation of the input |
| Ordering.NewestFirstSameRecords | app/api/admin/subscription-plans/route.ts:168-171 | a record is listed exactly when it is stored |
| PlanSchema.NameIssues | app/api/admin/subscription-plans/route.ts:9-12 | a name has no issue exactly when it is a string of 1 to 100 characters, counted before trimming |
| PlanSchema.PriceIssues | app/api/admin/subscription-plans/route.ts:13-15 | a price has no issue exactly when it is a number within [0.01, 99999.99] |
| PlanSchema.MaxServicesIssues | app/api/admin/subscription-plans/route.ts:16-20 | the limit has no issue exactly when it is missing, null, or a whole number of at least 1 |
| PlanSchema.FeaturesIssues | app/api/admin/subscription-plans/route.ts:21-22 | features have no issue exactly when they are a non-empty string |
| PlanSchema.ValidateRejects | app/api/admin/subscription-plans/route.ts:76-88 | the body is rejected exactly when there is an issue, with every issue reported; it is parsed exactly when every field is acceptable |
| PlanSchema.ParsedData | app/api/admin/subscription-plans/route.ts:8-23 | parsed data holds the trimmed name, the price, the limit (None when missing or null) and the features |
| PlanSchema.BlankNameStoredEmpty | app/api/admin/subscription-plans/route.ts:9-12 | a name of spaces passes the length checks and is stored empty |
| PlanSchema.FractionalLimitTwoIssues | app/api/admin/subscription-plans/route.ts:16-20 | a limit of 0.5 draws both the integer issue and the minimum issue |
| PlanSchema.EmptyBodyIssues | app/api/admin/subscription-plans/route.ts:76-88 | an empty body draws "Required" for name, price and features, and nothing for the optional limit |
| AppointmentsRoute.Booked | app/api/appointments/route.ts:61-69 | the new appointment takes the fresh id, is SCHEDULED, and records the booker, service, salon, instant and price |
| AppointmentsRoute.Post | app/api/appointments/route.ts:9-95 | a refusal changes nothing; success happens exactly when the caller has a user row, the service belongs to the salon and no live appointment holds the slot |
| AppointmentsRoute.PostRefusals | app/api/appointments/route.ts:9-58 | 401 without a caller; 404 without a user row; 404 for a service outside the salon; 400 for a taken slot; none writes |
| AppointmentsRoute.PostAppends | app/api/appointments/route.ts:61-95 | success appends exactly one SCHEDULED appointment for the caller's row at the client's price, and no other table changes |
| AppointmentsRoute.CanceledSlotIsFree | app/api/appointments/route.ts:45-58 | a slot held only by CANCELED appointments can be booked |
| AppointmentsRoute.RebookingRefused | app/api/appointments/route.ts:45-58 | once a slot is booked, booking it again is refused, with 400 for a caller with a user row |
| AppointmentsRoute.PostKeepsValid | app/api/appointments/route.ts:45-69 | booking preserves the store invariant, including one live appointment per service, salon and instant |
| SubscriptionCancelRoute.Post | app/api/subscription/cancel/route.ts:11-80 | a refusal changes nothing; a success is 200 and changes only the subscriptions |
| SubscriptionCancelRoute.PostRefusals | app/api/subscription/cancel/route.ts:11-47 | 401 without a caller; 400 without an id; 404 without a user row; 404 unless the subscription is the caller's and ACTIVE |
| SubscriptionCancelRoute.ExpiryBoundary | app/api/subscription/cancel/route.ts:50-55 | an eligible subscription is refused with 400 exactly when its end date is before now; an end date equal to now still cancels |
| SubscriptionCancelRoute.PostCancelsOne | app/api/subscription/cancel/route.ts:58-80 | success sets that one subscription, the caller's ACTIVE one, to CANCELED, keeps its end date and plan, reports them, and leaves every other subscription alone |
| SubscriptionCancelRoute.CancelTwiceFails | app/api/subscription/cancel/route.ts:32-47 | a second cancel of the same subscription is refused with 404 and changes nothing |
| SubscriptionCancelRoute.PostKeepsValid | app/api/subscription/cancel/route.ts:58-67 | cancelling preserves the store invariant |
| StripeWebhookRoute.AmountOf | app/api/stripe/webhook/route.ts:59 | the amount is the total in cents divided by 100, or 0 when the total is null |
| StripeWebhookRoute.Post | app/api/stripe/webhook/route.ts:20-81 | a failure is 400 and writes nothing; a success is 200 |
| StripeWebhookRoute.PostNoWrite | app/api/stripe/webhook/route.ts:20-81 | a bad signature and a checkout without user or plan metadata are 400; every event other than a checkout is acknowledged; none writes |
| StripeWebhookRoute.CheckoutRecords | app/api/stripe/webhook/route.ts:32-64 | a completed checkout appends one ACTIVE subscription from now to a month later and one COMPLETED "stripe" payment of the converted amount whose subscription field holds the plan id; nothing else changes |
| StripeWebhookRoute.ReplayRecordsTwice | app/api/stripe/webhook/route.ts:41-64 | delivering the same checkout event twice records two subscriptions and two payments |
| StripeWebhookRoute.PostKeepsValid | app/api/stripe/webhook/route.ts:41-64 | the webhook preserves the store invariant |
| SubscriptionPlansRoute.LimitOrNull | app/api/admin/subscription-plans/route.ts:114 | `max_services_per_month \|\| null`: a missing or zero limit is stored as null, any other is kept |
| SubscriptionPlansRoute.Create | app/api/admin/subscription-plans/route.ts:41-126 | a refusal changes nothing; a success is 201 |
| SubscriptionPlansRoute.CreateRefusals | app/api/admin/subscription-plans/route.ts:46-107 | 401 without a caller; 403 unless the caller is a stored ADMIN; 400 with the schema's issues; 409 when a plan has the name; none writes |
| SubscriptionPlansRoute.CreateAppends | app/api/admin/subscription-plans/route.ts:110-126 | success appends exactly the parsed plan with the fresh id and the creation time, no stored plan had the name, and nothing else changes |
| SubscriptionPlansRoute.CreateKeepsValid | app/api/admin/subscription-plans/route.ts:93-126 | creating a plan preserves the store invariant, including unique plan names |
| SubscriptionPlansRoute.SecondCreateConflicts | app/api/admin/subscription-plans/route.ts:93-107 | posting the same plan twice: the second is refused with 409 |
| SubscriptionPlansRoute.PlanIds | app/api/admin/subscription-plans/route.ts:180-184 | the plan each subscription references, in order |
| SubscriptionPlansRoute.SubscriptionsOf | app/api/admin/subscription-plans/route.ts:180-184 | a plan's count is the number of subscriptions that reference it: its multiplicity among their plan ids |
| SubscriptionPlansRoute.WithCounts | app/api/admin/subscription-plans/route.ts:168-186 | each plan is listed, in order, with the count of subscriptions on it |
| SubscriptionPlansRoute.List | app/api/admin/subscription-plans/route.ts:144-188 | the listing never writes |
| SubscriptionPlansRoute.ListNewestFirst | app/api/admin/subscription-plans/route.ts:168-188 | an admin gets 200 with every stored plan (a permutation), newest first, each with its count |
| SubscriptionPlansRoute.ListRefusals | app/api/admin/subscription-plans/route.ts:148-166 | 401 without a caller; 403 unless the caller is a stored ADMIN |
| ClerkWebhookRoute.NewClient | app/api/webhook/route.ts:62-67 | a created user takes the fresh id and is a CLIENT with the first email and a non-empty display name |
| ClerkWebhookRoute.Post | app/api/webhook/route.ts:15-143 | a refusal changes nothing; a success is 200 |
| ClerkWebhookRoute.Created | app/api/webhook/route.ts:49-81 | the call fails exactly when the id is unknown and there is no email address; the failure is 500 and writes nothing; a success is 200 |
| ClerkWebhookRoute.Updated | app/api/webhook/route.ts:83-123 | the call fails exactly when there is no email address, known id or not; the failure is 500 and writes nothing; a success is 200 |
| ClerkWebhookRoute.Deleted | app/api/webhook/route.ts:125-141 | the call fails exactly when no user has the id; the failure is 500 and writes nothing; a success is 200 |
| ClerkWebhookRoute.PostFailures | app/api/webhook/route.ts:62-141 | a verified event gets 500 with nothing written when creating an unknown user with no email address, when updating with no email address, and when deleting an unknown user |
| ClerkWebhookRoute.PostNoWrite | app/api/webhook/route.ts:15-41 | missing headers and a failed verification are 400, other event kinds are 200, and none writes |
| ClerkWebhookRoute.CreatedInsertsOnce | app/api/webhook/route.ts:49-81 | user.created for a new id appends one CLIENT row with the first email and the display name; for a known id it writes nothing, so a repeat delivery changes nothing |
| ClerkWebhookRoute.UpdatedUpserts | app/api/webhook/route.ts:83-123 | user.updated on a known id changes only that row's email and name, keeping id and role; on an unknown id it appends a CLIENT row |
| ClerkWebhookRoute.DeletedRemoves | app/api/webhook/route.ts:125-141 | user.deleted removes exactly the row with that id, keeping the others in order, and no row with that id remains |
| ClerkWebhookRoute.PostKeepsValid | app/api/webhook/route.ts:49-141 | every event preserves the store invariant |
| ClerkSync.PrimaryEmail | lib/clerk.ts:8-12 | an email is found exactly when some address has the primary id, and it is such an address |
| ClerkSync.Sync | lib/clerk.ts:5-61 | an error changes nothing |
| ClerkSync.SyncErrors | lib/clerk.ts:5-12 | without a user, or without a non-empty primary email, the sync throws and nothing changes; otherwise it returns a row |
| ClerkSync.SyncResult | lib/clerk.ts:28-61 | the returned row carries the Clerk id, the primary email and the display name, and is the row stored for that Clerk id |
| ClerkSync.SyncCases | lib/clerk.ts:28-61 | an unknown user is appended as CLIENT with metadata role and userId; a matching row is returned unwritten; a differing row is rewritten with role CLIENT whatever it was |
| ClerkSync.SyncTwiceSameAsOnce | lib/clerk.ts:28-61 | syncing twice leaves the state and result of syncing once |
| ClerkSync.SyncKeepsValid | lib/clerk.ts:28-61 | syncing preserves the store invariant |
| FirstUserCheckRoute.Get | app/api/first-user-check/route.ts:11-64 | the call succeeds exactly when there is a caller |
| FirstUserCheckRoute.GetUnauthorized | app/api/first-user-check/route.ts:11-13 | 401 without a caller, and nothing changes |
| FirstUserCheckRoute.SoleUserBecomesAdmin | app/api/first-user-check/route.ts:20-51 | the sole user is reported as first user and ADMIN; if not yet ADMIN, their row becomes ADMIN and their metadata becomes role and userId; otherwise nothing is written |
| FirstUserCheckRoute.OthersOnlyRead | app/api/first-user-check/route.ts:56-64 | when the caller is not the sole user nothing is written and the reply says whether the caller is a stored ADMIN |
| FirstUserCheckRoute.ReplyMatchesStore | app/api/first-user-check/route.ts:20-64 | after any call with a caller, the reply's isAdmin matches the caller's stored role |
| FirstUserCheckRoute.GetTwiceSameAsOnce | app/api/first-user-check/route.ts:20-43 | calling twice leaves the state and reply of calling once |
| FirstUserCheckRoute.GetKeepsValid | app/api/first-user-check/route.ts:24-43 | the check preserves the store invariant |
| CheckRoleRoute.Get | app/api/user/check-role/route.ts:10-47 | the user table is never written |
| CheckRoleRoute.GetRefusals | app/api/user/check-role/route.ts:10-23 | 401 without a caller; 404 without a user row; neither writes |
| CheckRoleRoute.GetReconciles | app/api/user/check-role/route.ts:26-47 | afterwards the cached role is the stored role, which the reply returns; a differing cache gets role and userId set and keeps its other keys, and no other user's metadata changes |
| CheckRoleRoute.GetTwiceSameAsOnce | app/api/user/check-role/route.ts:26-41 | calling twice leaves the state and reply of calling once |
| UpdateUserRoleRoute.Post | app/api/admin/update-user-role/route.ts:11-63 | a refusal changes nothing; success happens exactly for an ADMIN caller, both fields, a whitelisted role and a stored user |
| UpdateUserRoleRoute.PostRefusals | app/api/admin/update-user-role/route.ts:11-43 | 401 without a caller; 403 unless ADMIN; 400 without both fields; 400 for a role outside the whitelist; 404 for an unknown user |
| UpdateUserRoleRoute.PostSetsRole | app/api/admin/update-user-role/route.ts:46-63 | success sets that user's role and nothing else in any row, and replaces their metadata with exactly role and userId |
| UpdateUserRoleRoute.PostTwiceSameAsOnce | app/api/admin/update-user-role/route.ts:46-57 | repeating a successful update leaves the state of doing it once |
| UpdateUserRoleRoute.PostKeepsValid | app/api/admin/update-user-role/route.ts:46-57 | the update preserves the store invariant |
| PartnerRegisterRoute.NewSalon | app/api/partner/register/route.ts:39-61 | a new salon takes the fresh id, is PENDING with no rejection reason, is owned by the applicant, and works Monday to Saturday |
| PartnerRegisterRoute.Post | app/api/partner/register/route.ts:11-61 | a refusal changes nothing; success happens exactly when the body's user is the caller's own row and owns no salon |
| PartnerRegisterRoute.PostRefusals | app/api/partner/register/route.ts:11-36 | 401 without a caller; 404 unless the body's user id is the caller's row; 400 when that user already owns a salon |
| PartnerRegisterRoute.PostAppends | app/api/partner/register/route.ts:39-61 | success appends exactly one PENDING salon with the body's fields and no Sunday; users and roles are not touched |
| PartnerRegisterRoute.SecondRegistrationRefused | app/api/partner/register/route.ts:34-36 | a second registration for the same user is refused with 400 |
| PartnerRegisterRoute.PostKeepsValid | app/api/partner/register/route.ts:34-61 | registration preserves the store invariant, including one salon per user |
| PartnerReviewRoute.PartnerMeta | app/api/partner/approve/route.ts:48-54 | the owner's metadata keeps its other keys and gets role PARTNER |
| PartnerReviewRoute.Approve | app/api/partner/approve/route.ts:11-54 | the user table is never written |
| PartnerReviewRoute.ApproveRefusals | app/api/partner/approve/route.ts:11-39 | 401 without a caller; 403 unless ADMIN; 400 without a salon id; 404 for an unknown salon; none writes |
| PartnerReviewRoute.ApproveEffect | app/api/partner/approve/route.ts:42-54 | the salon becomes APPROVED whatever its status, with its other fields kept; with an owner row the owner's metadata role becomes PARTNER; without one the reply is 500 after the status write |
| PartnerReviewRoute.ApproveTwiceSameAsOnce | app/api/partner/approve/route.ts:42-54 | approving twice leaves the state of approving once |
| PartnerReviewRoute.ReasonOrDefault | app/api/partner/reject/route.ts:43 | the stored reason is never empty: the given one, or the default when it is missing or empty |
| PartnerReviewRoute.Reject | app/api/partner/reject/route.ts:9-45 | a refusal changes nothing |
| PartnerReviewRoute.RejectRefusals | app/api/partner/reject/route.ts:9-36 | 401 without a caller; 403 unless ADMIN; 400 without a salon id; 404 for an unknown salon |
| PartnerReviewRoute.RejectEffect | app/api/partner/reject/route.ts:39-45 | the salon becomes REJECTED in any status with the given or default reason; only its status and reason change |
| PartnerReviewRoute.ApproveKeepsValid | app/api/partner/approve/route.ts:42-54 | approval preserves the store invariant |
| PartnerReviewRoute.RejectKeepsValid | app/api/partner/reject/route.ts:39-45 | rejection preserves the store invariant |
| PartnerServicesRoute.NewService | app/api/partner/services/route.ts:88-101 | the new service takes the fresh id, belongs to the body's salon and records the clock |
| PartnerServicesRoute.Create | app/api/partner/services/route.ts:50-101 | a refusal changes nothing; success happens exactly when every field is truthy and the caller owns the salon |
| PartnerServicesRoute.CreateRefusals | app/api/partner/services/route.ts:54-86 | 401 without a caller; 400 when a field is missing or falsy; 404 unless the caller owns the salon |
| PartnerServicesRoute.ZeroPriceOrDurationRefused | app/api/partner/services/route.ts:70-72 | a price or duration of zero counts as missing and is refused with 400 |
| PartnerServicesRoute.CreateAppends | app/api/partner/services/route.ts:88-101 | success appends exactly one service with the supplied fields and the clock, a negative duration included; nothing else changes |
| PartnerServicesRoute.CreateKeepsValid | app/api/partner/services/route.ts:88-101 | creating a service preserves the store invariant |
| PartnerServicesRoute.ServicesOf | app/api/partner/services/route.ts:34-37 | the selection holds each of the salon's services as often as it is stored, and nothing else |
| PartnerServicesRoute.List | app/api/partner/services/route.ts:5-48 | the listing never writes; it succeeds exactly when there is a caller and a salon id and the caller owns the salon |
| PartnerServicesRoute.ListRefusals | app/api/partner/services/route.ts:9-32 | 401 without a caller; 400 without a salon id; 404 unless the caller owns the salon |
| PartnerServicesRoute.ListSalonServices | app/api/partner/services/route.ts:34-43 | the owner gets exactly the salon's services, each as often as stored, newest first |
| Backend.Store.constructor | app/api/first-user-check/route.ts:16-18 | a new store is empty and satisfies the invariant |
| Backend.Store.BookAppointment | app/api/appointments/route.ts:9-95 | the new state and reply are those of the booking route, and the invariant still holds |
| Backend.Store.BookAppointmentSteps | app/api/appointments/route.ts:9-95 | the handler's checks and insert, in order, end in the booking route's state and reply |
| Backend.Store.CancelSubscription | app/api/subscription/cancel/route.ts:11-80 | the new state and reply are those of the cancel route, and the invariant still holds |
| Backend.Store.CancelSubscriptionSteps | app/api/subscription/cancel/route.ts:11-80 | the handler's checks and update, in order, end in the cancel route's state and reply |
| Backend.Store.StripeWebhook | app/api/stripe/webhook/route.ts:20-81 | the new state and reply are those of the Stripe webhook, and the invariant still holds |
| Backend.Store.StripeWebhookSteps | app/api/stripe/webhook/route.ts:20-81 | the handler's checks and two inserts end in the Stripe webhook's state and reply |
| Backend.Store.CreatePlan | app/api/admin/subscription-plans/route.ts:41-126 | the new state and reply are those of the plan POST, and the invariant still holds |
| Backend.Store.CreatePlanSteps | app/api/admin/subscription-plans/route.ts:41-126 | the handler's checks and insert, in order, end in the plan POST's state and reply |
| Backend.Store.ListPlans | app/api/admin/subscription-plans/route.ts:144-188 | the reply is that of the plan GET, and nothing is written |
| Backend.Store.InsertUser | lib/clerk.ts:43-51 | the row appended takes the counter's value as id, and the counter advances |
| Backend.Store.RewriteUser | app/api/webhook/route.ts:95-103 | only the row at the index is replaced |
| Backend.Store.ClerkWebhook | app/api/webhook/route.ts:15-143 | the new state and reply are those of the Clerk webhook, and the invariant still holds |
| Backend.Store.UserCreated | app/api/webhook/route.ts:49-81 | the new state and reply are those of user.created |
| Backend.Store.UserUpdated | app/api/webhook/route.ts:83-123 | the new state and reply are those of user.updated |
| Backend.Store.UserDeleted | app/api/webhook/route.ts:125-141 | the new state and reply are those of user.deleted |
| Backend.Store.SyncClerkUser | lib/clerk.ts:5-61 | the new state and result are those of the sync, and the invariant still holds |
| Backend.Store.SyncFound | lib/clerk.ts:14-61 | once the primary email is found, the writes end in the sync's state and result |
| Backend.Store.FirstUserCheck | app/api/first-user-check/route.ts:11-64 | the new state and reply are those of the first-user check, and the invariant still holds |
| Backend.Store.FirstUserCheckSteps | app/api/first-user-check/route.ts:11-64 | the handler's checks and promotion end in the first-user check's state and reply |
| Backend.Store.CheckRole | app/api/user/check-role/route.ts:10-47 | the new state and reply are those of the role check, and the invariant still holds |
| Backend.Store.UpdateUserRole | app/api/admin/update-user-role/route.ts:11-63 | the new state and reply are those of the role update, and the invariant still holds |
| Backend.Store.UpdateUserRoleSteps | app/api/admin/update-user-role/route.ts:11-63 | the handler's checks and writes, in order, end in the role update's state and reply |
| Backend.Store.RegisterPartner | app/api/partner/register/route.ts:11-61 | the new state and reply are those of registration, and the invariant still holds |
| Backend.Store.RegisterPartnerSteps | app/api/partner/register/route.ts:11-61 | the handler's checks and insert, in order, end in registration's state and reply |
| Backend.Store.ApproveSalon | app/api/partner/approve/route.ts:11-54 | the new state and reply are those of approval, and the invariant still holds |
| Backend.Store.ApproveSalonSteps | app/api/partner/approve/route.ts:11-54 | the handler's checks and two writes, in order, end in approval's state and reply |
| Backend.Store.RejectSalon | app/api/partner/reject/route.ts:9-45 | the new state and reply are those of rejection, and the invariant still holds |
| Backend.Store.RejectSalonSteps | app/api/partner/reject/route.ts:9-45 | the handler's checks and update, in order, end in rejection's state and reply |
| Backend.Store.CreateService | app/api/partner/services/route.ts:50-101 | the new state and reply are those of the service POST, and the invariant still holds |
| Backend.Store.CreateServiceSteps | app/api/partner/services/route.ts:50-101 | the handler's checks and insert, in order, end in the service POST's state and reply |
| Backend.Store.ListServices | app/api/partner/services/route.ts:5-48 | the reply is that of the service GET, and nothing is written |

## Behaviour of the code worth knowing

The model follows the code in each of these places.

- **Booking slots.** The last slot may run past the end time. The loop compares only a slot's start with the end (`BookingCard.LastSlotMayOverrun`).
- **Stripe checkout webhook.** It is not idempotent. A replayed `checkout.session.completed` records a second subscription and a second payment (`StripeWebhookRoute.ReplayRecordsTwice`). The payment's `subscription_id` is the plan id from the metadata, not the new subscription's id.
- **Quotas.** The dashboard shows a monthly service allowance (components/dashboard-client.tsx:69-123), and the registration form speaks of commissions (components/partner-registration-form.tsx:223). But no route enforces a plan's monthly limit or computes a commission.
- **Partner approval.** It writes the PARTNER role to the identity-provider metadata only. The stored user row keeps its role until the role check reconciles the metadata back to the stored role (`PartnerReviewRoute.Approve`, `CheckRoleRoute.GetReconciles`).
- **Weekday filter.** `new Date(date)` reads the date input's "YYYY-MM-DD" as UTC midnight, and `getDay` reads local time (components/booking-card.tsx:61-62). West of UTC, which includes all of Brazil, the number is therefore the previous calendar day's weekday. At UTC-3, Wednesday 2024-05-15 gives 2, so with days [1, 3, 5] that Wednesday is refused and the Tuesday before it is accepted. The booked instant `${date}T${time}:00` (components/booking-card.tsx:102) is read as local time, so the filter and the booking disagree by one day.
- **User sync.** Re-syncing an existing user whose email or name changed resets their role to CLIENT (`ClerkSync.SyncCases`).

## Left out

- Concurrency: each route runs to completion on its own, with no interleaving. The race between the slot check and the insert in the booking route is not modelled.
- Webhook signature verification (svix and Stripe) is a boolean input.
- The Clerk and Stripe SDK calls are not modelled. Metadata updates are modelled as map writes that always succeed, and the Stripe checkout route is not part of this model.
- Dates and clocks:
  - "now" and "one month later" are inputs;
  - instants are integers;
  - the weekday number of a selected date (`getDay`) is an input;
  - an `available_days` string is modelled as already parsed, or as unparseable.
- Common.IdText: record ids are naturals drawn from a counter, and the metadata `userId` is their decimal text. The database generates string ids (lib/@types/subscription.ts:2, components/booking-card.tsx:13,16), and the metadata `userId` is that string.
- Money and coordinates are exact reals. JavaScript floating-point rounding, including `amount_total / 100`, is not modelled.
- String lengths count Unicode code points. zod and JavaScript count UTF-16 code units, which differ only outside the Basic Multilingual Plane.
- Database failures are left out: connection errors, foreign-key constraints, and partial writes such as the payment insert failing after the subscription insert. A 500 is modelled only where the code itself makes the write throw:
  - approval of a salon whose owner row is missing;
  - a Clerk `user.created` for an unknown id, or any `user.updated`, with no email address;
  - a Clerk `user.deleted` for an unknown id.
- SubscriptionCancelRoute.Post: the cancel also writes `updated_at` (app/api/subscription/cancel/route.ts:63). `Subscription` has no update timestamp, so that write is not modelled.
- ClerkSync.Sync: the metadata write after creating a user (lib/clerk.ts:54) calls `update` on the server-side Clerk `User` object. The SDK is not part of this model, and the model assumes the call succeeds. If that type has no `update` method, the call throws after the row was created: the caller then gets an error while the new row stays stored and the metadata is never written.
- Prisma treats an `undefined` filter as matching everything. The model gives body ids as present values, or as `Option` where the route checks for presence.
- A request body that is not a JSON object, and a failing `req.json()`, are not modelled.
- Response shaping is simplified:
  - the cancel reply carries the plan id rather than the plan's name;
  - the appointment reply is the stored record;
  - replies do not model the `include` joins.
- Records with equal `created_at` may come back from the newest-first listings in any order. The model proves only that the order is non-increasing and is a permutation.
- The caller is `Option<string>`. An empty Clerk user id is treated as a present caller.
- Navbar.LogoTarget, Navbar.NavLinks: the role state's later override by the check-role fetch and the page reload (navbar.tsx:33-52) are UI effects. They appear only as the `userRole` parameter.
- The Mercado Pago webhook, the middleware, the nearby-salons search, geolocation and all rendering are not part of this model.

## Findings

| source | as written | input that shows it | evidently intended | confidence | as-written member | corrected member |
|---|---|---|---|---|---|---|
| components/booking-card.tsx:47-50 with app/api/partner/services/route.ts:70 | the services POST checks only that `duration_min` is truthy, so it stores a negative duration; each pass of the slot loop pushes a label and then moves the clock back by that duration, so the guard `start < end` holds after every pass and the render never finishes (the model's clock is unbounded; a Date becomes invalid only after about 1.44e11 minutes, far beyond the passes an ordinary negative duration allows before memory runs out) | a service with `duration_min = -30` and the default 09:00-18:00 window | a negative duration is refused or offers no slots | not executed | BookingCard.NegativeDurationNeverStops | BookingCard.NegativeDurationNoSlots |
