# Subscription lifecycle and client session model

This project models the core rules of a small subscription-commerce service. A
Django backend keeps plans, user subscriptions and payment proofs awaiting manual
verification. A React single-page client logs a user in, lists plans and shows
the user's latest subscription. The model covers four parts:

- **Records** (`models.dfy`, `dates.dfy`). `UserSubscription.save` derives the end date as
  the start date plus the plan's `duration_months` calendar months. Month addition
  clamps the day the way `dateutil.relativedelta` does. The `is_active` property is
  also modelled.
- **Endpoints** (`queries.dfy`, `views.dfy`). The guard chains of purchase,
  payment-proof submission, manual renewal, subscription creation and the per-user
  listing run over an abstract store. The store is a `Store` class holding
  sequences of plans, subscriptions and payments. Purchase and the listing never
  write. Payment creation, renewal and subscription creation insert exactly one row
  when they succeed, and leave the store as it was when they answer with an error.
- **Batch renewal** (`renew_command.dfy`). The management command charges every row
  whose end date has come. Each successful charge inserts a renewal. The random
  payment outcome is a sequence of booleans given as input.
- **Client** (`client.dfy`). This covers the request interceptor that attaches
  `Token <authToken>`, and the stable in-place sort that picks the subscription to
  show. It also covers the `App` component's state (`token`, `user`,
  `subscription`, `currentPage`, `plans`, `message`, and the stored `authToken`) and
  its handlers for login, fetching the user, fetching subscriptions, fetching
  plans, and logout. Server answers are passed in as values.

The date of the request (`timezone.now().date()`) is always the parameter `today`.

The client (`frontend/src/App.js`) sends a fixed `Token` header read from
storage; it has no token expiry and no refresh logic. The model reads "active" the way each piece of code does, and the
pieces differ:

- `is_active` requires status ACTIVE and an end date that is today or later.
- The purchase, payment and create guards only look at `end_date >= today`.
- The renewal command charges rows with `end_date <= today`.

## Model

| member | source | states |
|---|---|---|
| `Dates.AddMonths` | backend/subscriptions/models.py:42 | the result lies exactly n months after the start, with the month count carried into the year in either direction; its day is the start's day clamped to the length of the month reached |
| `Dates.AddMonthsZero` | backend/subscriptions/models.py:42 | adding zero months gives back the same date |
| `Dates.AddMonthsNotBefore` | backend/subscriptions/models.py:42 | a non-negative duration never gives an earlier date, and a positive one gives a strictly later date |
| `Dates.AddMonthsNegativeIsEarlier` | backend/subscriptions/models.py:42 | a negative duration (the field is a plain integer) gives an earlier date |
| `Dates.AddMonthsKeepsDay` | backend/subscriptions/models.py:42 | a day of the month up to 28 is never clamped |
| `Dates.ClampsToMonthEnd` | backend/subscriptions/models.py:42 | 31 January plus one month is 29 February in a leap year and 28 February otherwise; 30 November plus three months is 28 February |
| `Dates.OrdinalOrder` | frontend/src/App.js:108 | the numeric key used to compare dates orders them exactly as the calendar does |
| `Models.NewSubscription` | backend/subscriptions/models.py:25-29 | a subscription built from user, plan and start date has status ACTIVE and no end date |
| `Models.NewPayment` | backend/subscriptions/models.py:46-51 | a new payment is unverified and linked to no subscription |
| `Models.IsActive` | backend/subscriptions/models.py:31-34 | `is_active`: status ACTIVE and an end date that is today or later; its cases are proved in `OnlyActiveStatusIsActive` |
| `Models.OnlyActiveStatusIsActive` | backend/subscriptions/models.py:31-34 | `is_active` holds exactly when the status is ACTIVE, an end date is present and it is not before today; PENDING, EXPIRED and CANCELED rows are never active |
| `Models.Saved` | backend/subscriptions/models.py:39-43 | save sets the end date to start plus the plan's duration exactly when a start date is set and no end date is; an existing end date is never overwritten and no end date appears without a start date |
| `Models.SaveIdempotent` | backend/subscriptions/models.py:39-43 | saving a saved row again writes the same row |
| `Models.SavedEndNotBeforeStart` | backend/subscriptions/models.py:39-42 | a derived end date is never before the start date when the duration is not negative |
| `Models.FreshSubscriptionIsActive` | backend/subscriptions/models.py:31-42 | a subscription started today on a plan whose duration is not negative is active once saved; a zero-month plan ends today and is still active |
| `Queries.EndsOnOrAfter` | backend/subscriptions/api/views.py:96 | the filter `end_date__gte=today`, which no row without an end date matches |
| `Queries.HasCurrent` | backend/subscriptions/api/views.py:35 | some row of the user ends today or later, whatever its status (the same query at lines 96 and 173); `PurchaseBlockedByInactiveRow` shows where it departs from `is_active` |
| `Queries.HasUnverified` | backend/subscriptions/api/views.py:164 | the user has an unverified payment (the same query at line 103); `CountUnverified` counts these |
| `Queries.CountUnverified` | backend/subscriptions/api/views.py:164 | the count of the user's unverified payments is zero exactly when the pending-payment query finds none |
| `Queries.CountUnverifiedAppend` | backend/subscriptions/api/views.py:164 | appending a payment raises the count by one exactly when it is an unverified payment of that user |
| `Queries.FindPlan` | backend/subscriptions/api/views.py:187 | the plan lookup finds a catalogue plan with the requested id, and finds nothing exactly when no plan has it |
| `Queries.EndNotAfter` | backend/subscriptions/api/views.py:58 | the order of `order_by('-end_date')`: one row ends no later than another, a missing end date counting as lowest; `LatestOf` picks a row maximal in it |
| `Queries.LatestOf` | backend/subscriptions/api/views.py:58 | `order_by('-end_date').first()` yields nothing exactly when the user has no rows; otherwise it yields one of the user's rows whose end date no other row of the user exceeds |
| `Queries.OwnedBy` | backend/subscriptions/api/views.py:45 | the user filter keeps every copy of each of the user's rows, as often as stored, and no other row |
| `Queries.StartNotAfter` | backend/subscriptions/api/views.py:45 | the order of `order_by('-start_date')`: one row started no later than another, a missing start date counting as earliest; `StartNotAfterTransitive` and `StartNotAfterTotal` make it a total preorder |
| `Queries.InsertByStart` | backend/subscriptions/api/views.py:45 | inserting a row keeps the rows, adds the one row, and keeps latest-start-first order |
| `Queries.SortByStartDesc` | backend/subscriptions/api/views.py:45 | `order_by('-start_date')` is a permutation of its input with the latest start first |
| `Views.PurchaseStatusCode` | backend/subscriptions/api/views.py:88-120 | the purchase's HTTP codes: 200 for a selected plan, 500 for any lookup failure including an unknown plan, 400 for the three refusals; `UnknownPlanStatusCodes` states the 500 |
| `Views.PaymentStatusCode` | backend/subscriptions/api/views.py:150-213 | payment creation's HTTP codes: 201 on success, 404 for an unknown plan, 400 for every other refusal |
| `Views.CreateStatusCode` | backend/subscriptions/api/views.py:35-37 | creation answers 201 when a row is written and 400 when the validation error is raised; `DecideCreate` states when each happens |
| `Views.RenewStatusCode` | backend/subscriptions/api/views.py:60-77 | renewal answers 201 when a row is written and 400 when the user has none; `Store.Renew` states when each happens |
| `Views.Store.Valid` | backend/subscriptions/models.py:26-48 | every subscription's plan is in the catalogue, and every payment's plan id names a catalogue plan (the foreign key at models.py:48); every store method keeps it |
| `Views.Truthy` | backend/subscriptions/api/views.py:88 | Python's truth value of the request field: false when absent, empty or the number 0, true for every other string, "0" included |
| `Views.DecidePurchase` | backend/subscriptions/api/views.py:84-120 | the purchase guards in order: a falsy plan id (absent, empty, or the number 0, but not the string "0") is 400; then a row ending today or later is 400; then an unverified payment is 400; only then is the plan looked up, a failure being 500; success echoes the plan id |
| `Views.DecidePayment` | backend/subscriptions/api/views.py:147-213 | the payment guards in order: missing file, missing plan key, pending payment, row ending today or later, malformed plan id (400), unknown plan (404), invalid image (400), each outcome holding exactly when the checks before it pass; success is an unverified payment of the requester for that plan |
| `Views.DecideCreate` | backend/subscriptions/api/views.py:32-37 | creation is refused for an unknown plan, and otherwise exactly when the user has a row ending today or later; the created row keeps the requested user, the plan the lookup finds, the start date and status, with ACTIVE as the default status; its end date is the requested one, or, when only a start date is given, the one `save` derives from the plan's duration; a creation is answered 201 and a refusal 400 |
| `Views.Store.SaveSubscription` | backend/subscriptions/models.py:39-43 | saving appends the row with its derived end date and changes nothing else |
| `Views.Store.Purchase` | backend/subscriptions/api/views.py:84-120 | the purchase answer is the guard chain's, and the store is not written whatever the answer, a selected plan included |
| `Views.Store.CreatePayment` | backend/subscriptions/api/views.py:147-219 | an error leaves the store unchanged; success appends exactly one payment and changes nothing else, and afterwards the user has exactly one unverified payment |
| `Views.Store.Renew` | backend/subscriptions/api/views.py:54-77 | with no rows for the user, and only then, it is a 400 and writes nothing; otherwise it appends one ACTIVE row for the plan of the user's latest-ending row, starting today, whether or not the user already has an active subscription |
| `Views.Store.CreateSubscription` | backend/subscriptions/api/views.py:32-37 | a refusal writes nothing; a creation appends exactly the created row |
| `Views.Store.ListSubscriptions` | backend/subscriptions/api/views.py:43-47 | the listing holds exactly the user's rows, each as often as stored, ordered latest start first |
| `Views.PurchaseBlockedByInactiveRow` | backend/subscriptions/api/views.py:96-101 | a row that is not ACTIVE but ends today or later blocks a purchase even though `is_active` calls it inactive |
| `Views.PendingRowBlocksPurchase` | backend/subscriptions/api/views.py:96-101 | a user whose only row is PENDING has nothing active, yet the purchase is refused |
| `Views.UnknownPlanStatusCodes` | backend/subscriptions/api/views.py:110-120 | an unknown plan id, sent as a number or as a string (the string "0" included), is answered 500 by purchase, because the blanket handler catches the 404, and 404 by payment creation |
| `Views.ZeroPlanIdNumberOrString` | backend/subscriptions/api/views.py:88-120 | the number 0 is refused as a missing plan id, while the string "0" passes the truth test and, with no plan 0, ends in the 500 of the blanket handler |
| `Views.GuardOrdersDiffer` | backend/subscriptions/api/views.py:96-179 | with both a current row and a pending payment, purchase reports the subscription and payment creation reports the payment |
| `Views.PurchaseThenPaymentAgree` | backend/subscriptions/api/views.py:96-201 | when purchase selects a plan, a valid proof for the same plan creates the payment |
| `RenewCommand.Due` | backend/subscriptions/management/commands/renew_subscriptions.py:18-20 | the command charges exactly the rows with an end date on or before today; rows without an end date are never charged |
| `RenewCommand.DueCount` | backend/subscriptions/management/commands/renew_subscriptions.py:18-24 | each due row is charged as many times as it is stored, and no other row is charged |
| `RenewCommand.IsDue` | backend/subscriptions/management/commands/renew_subscriptions.py:18-20 | the filter `end_date__lte=today`, which no row without an end date matches |
| `RenewCommand.Renewal` | backend/subscriptions/management/commands/renew_subscriptions.py:30-35 | a renewal has the charged row's user and plan, starts today, is ACTIVE and ends the plan's duration later |
| `RenewCommand.Renewals` | backend/subscriptions/management/commands/renew_subscriptions.py:24-35 | the rows the loop writes, in charging order; `RenewalsCount` and `RenewalsExactly` state which and how many |
| `RenewCommand.RenewalsCount` | backend/subscriptions/management/commands/renew_subscriptions.py:24-35 | the number of rows written equals the number of successful payments, which is at most the number of rows charged |
| `RenewCommand.RenewalsExactly` | backend/subscriptions/management/commands/renew_subscriptions.py:24-43 | a row is written exactly for each charged row whose payment succeeded, and a failed payment writes nothing |
| `RenewCommand.RenewExpired` | backend/subscriptions/management/commands/renew_subscriptions.py:16-45 | the store only grows: the old rows stay as they were, followed by the renewals in charging order; plans and payments are untouched |
| `RenewCommand.DueAppend` | backend/subscriptions/management/commands/renew_subscriptions.py:18-20 | the charge filter applied to two parts of the store gives the rows of the first part followed by those of the second |
| `RenewCommand.RenewalsNotDue` | backend/subscriptions/management/commands/renew_subscriptions.py:18-35 | renewals on plans of a month or more are not charged again on the same day |
| `RenewCommand.SecondRunRenewsAgain` | backend/subscriptions/management/commands/renew_subscriptions.py:18-35 | the command is not idempotent: after a run the same rows are due, so a second run that day charges and renews them again |
| `RenewCommand.EndingTodayIsActiveAndDue` | backend/subscriptions/management/commands/renew_subscriptions.py:18-20 | an ACTIVE row ending today is both active and charged |
| `Client.Serialize` | backend/subscriptions/api/serializers.py:15-21 | the listed `is_active` is the property evaluated on the server's today, and end date and status pass through unchanged |
| `Client.Truthy` | frontend/src/App.js:18 | JavaScript's truth test of the stored token (`if (token)`, and `if (savedToken)` at line 41): present and not empty |
| `Client.WithAuthHeader` | frontend/src/App.js:15-26 | with a stored token the header `Authorization` becomes `Token <token>`; without one the headers are untouched; other headers are never changed |
| `Client.WithAuthHeaderIdempotent` | frontend/src/App.js:15-22 | intercepting twice sets the same headers as intercepting once |
| `Client.EndKey` | frontend/src/App.js:108 | the time value `new Date(end_date)`, a missing end date counting as the epoch; `OrdinalOrder` shows it orders dates as the calendar does |
| `Client.EndsEarlier` | frontend/src/App.js:108 | the comparator returns a positive number, so the first record sorts after the second; `EndsEarlierIsBefore` ties it to the end dates |
| `Client.EndsEarlierIsBefore` | frontend/src/App.js:108 | the comparator orders two dated subscriptions by end date |
| `Client.InsertDesc` | frontend/src/App.js:108 | one insertion step adds exactly one element |
| `Client.InsertDescPermutes` | frontend/src/App.js:108 | an insertion step keeps every element and adds the inserted one |
| `Client.SortDesc` | frontend/src/App.js:108 | sorting keeps the length of the response |
| `Client.SortDescPermutes` | frontend/src/App.js:108 | sorting only reorders the response |
| `Client.InsertDescKeepsOrder` | frontend/src/App.js:108 | insertion keeps latest-end-first order, and the head is the inserted element exactly when it ends later than the old head |
| `Client.SortDescIsDescending` | frontend/src/App.js:108 | the sorted response is latest end date first |
| `Client.FirstLatest` | frontend/src/App.js:106-109 | the chosen position has an end date no element exceeds, and every earlier element ends strictly earlier, so ties go to the first in response order |
| `Client.SortDescHead` | frontend/src/App.js:108 | the head of the stable sort is the first element with the latest end date |
| `Client.InsertIntoPrefix` | frontend/src/App.js:108 | shifting one element into the sorted prefix is exactly one insertion step, and the rest of the array is untouched |
| `Client.SortByEndDesc` | frontend/src/App.js:108 | the in-place sort leaves the array holding the stable latest-end-first order of its old contents |
| `Client.OffersRenew` | frontend/src/App.js:326-346 | the dashboard shows the Renew button when a subscription is shown and its `is_active` is false; `RenewOfferedIffInactive` relates it to the server's property |
| `Client.RenewOfferedIffInactive` | frontend/src/App.js:317-356 | the dashboard offers Renew for a listed row exactly when the row is not active, so it always does for PENDING, EXPIRED and CANCELED rows |
| `Client.App.constructor` | frontend/src/App.js:29-37 | the first render has no token, user or subscription, no plans, an empty message, and the login page |
| `Client.App.Restore` | frontend/src/App.js:39-45 | a stored token is taken into the state and triggers a user fetch; with none nothing changes |
| `Client.App.FetchUserData` | frontend/src/App.js:72-83 | success sets the user and shows the plans; failure removes the stored token and clears the token but keeps the page |
| `Client.App.FetchPlans` | frontend/src/App.js:85-93 | success replaces the plans; failure only sets the message |
| `Client.App.FetchSubscriptionStatus` | frontend/src/App.js:95-123 | without a user id no request is made and nothing changes. A non-empty list shows the first latest-ending element on the dashboard. An empty list clears the subscription and shows the plans. A failure does the same and also sets the message |
| `Client.App.HandleLogin` | frontend/src/App.js:126-141 | success stores the token in both the state and storage; failure only sets the message |
| `Client.App.HandleLogout` | frontend/src/App.js:143-149 | clears token, user, subscription and the stored token and shows the login page; plans and message stay; a second logout changes nothing |

## Left out

- Price is a decimal that is shown but never computed on, so it is not kept. A plan's `active` flag is kept but, as in the code, never consulted.
- Python dates stop at year 9999, and month arithmetic past it raises an error. Years here are unbounded.
- `Views.Store.Renew`: the model takes `order_by('-end_date')` with rows that have no end date last, as SQLite orders them. PostgreSQL puts them first, so there `first()` may pick a row with no end date. Among equal end dates the database may pick any row. The contract pins only "some latest-ending row of the user".
- `Views.Store.ListSubscriptions`: the contract orders only rows whose start dates are both present. Where rows with no start date go, and the order among equal start dates, depend on the database.
- `UserSubscription.save` changes the Python object in place and then writes it. Only the written row is observable, so it is modelled as a function on values plus an append to the store.
- Request ids are integers, sent as JSON numbers or as strings that spell them, or other strings (`Views.FieldValue`). Django converts a spelled integer on lookup, so both forms find the same plan; only their truth values differ. Other JSON values (booleans, floats, lists) are not modelled.
- Authentication and permissions (`IsAuthenticated`, 401/403) are not modelled, and neither is the serializer's check that the user exists. Each request's user is a parameter.
- The generic create, retrieve, update and destroy views for plans and subscriptions are left out, along with the user detail view and the URL routing. They are framework configuration with no rules of their own.
- `backend/subscriptions/views.py` is an older copy of the API views that filters on `is_active`, which is not a database column. It is not part of this model.
- The proof upload, its image storage and the multipart encoding are reduced to "absent, image, or not an image". Logging, `print`, and the command's console output are left out.
- The command's random payment outcome is replaced by a given sequence of outcomes.
- In the client, `handlePurchase` and `handleRenew` are left out, because what they do is a request followed by a timed re-fetch. Also left out are the 10-second polling, the 2-second `setTimeout` re-fetches, the `isLoading` flag, and all rendering other than the Renew condition.
- Asynchronous interleavings are not modelled. One example is the user fetch that `handleLogin` starts without awaiting: the model treats it as the caller's next step. Another is a handler reading an older `user`. Concurrent requests racing the pending-payment check are also not modelled.
- The client's parsing of date strings is not modelled. An unparsable date would make the comparator return `NaN`.
- A login answer without a `token` field is not modelled.
