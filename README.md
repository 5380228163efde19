# Booking webhook and referral payouts of `apartments-rental`

`apartments-rental` is a Telegram bot with a small HTTP service for short-term
apartment rental. The bot shows apartment cards that carry a booking link.
The link holds attribution parameters: a tag, `utm_source`, `utm_medium` and
`utm_campaign`. The booking system (HomeReserve) calls the service's booking
webhook for every booking event. The webhook does the following, in order:

- checks a shared secret
- drops a call whose payload hash it has already seen
- normalises the provider's payload into canonical booking fields
- stores the raw event
- creates the booking by its external id, unless it exists
- attributes the booking to a referral code: a `partner_<code>` tag first, then the guest's phone
- for a paid booking, creates at most one pending payout for the code's owner
- stamps the raw event as processed

This project models that pipeline in Dafny and proves what it promises.

- **Data.** The database is the value `Store.Db`, with seven tables kept as
  sequences of rows in insertion order. Each crud helper is a function from
  one `Db` to the next, with the error the database would raise:
  - `scalar_one_or_none` on two rows;
  - NOT NULL and UNIQUE violations.
- **Session.** `Sessions.Session` is the session object. It holds the tables
  as fields and changes them in place. Every method is proved equal to its
  function and to keep the table constraints.
- **Webhook.** `Webhooks.Webhook` is the route as a function. Its result is
  the database after the call and the response. `Webhooks.WebhookBooking`
  runs the same steps through a `Session`, one crud call at a time, and is
  proved to end in `Webhook`'s result.
- **Bot utilities.** The modules also cover:
  - the payload parser (`WebhookParser`);
  - attribution (`Attribution`) and payouts (`Referrals`);
  - the settings properties (`Config`);
  - the pure bot helpers (`BotUtils`): the booking link and its read-back
    through `parse_qs`, the features line of a card, and the date-range input.

Modules: `Wrappers` (Option/Result), `Documents` (decoded JSON and Python
truthiness), `Text` (Python string operations), `Models`, `Config`, `Store`,
`Sessions`, `WebhookParser`, `Attribution`, `Referrals`, `Webhooks`,
`BotUtils`.

Three behaviours of the code are worth stating up front:

- **Bookings are never updated.** A later webhook for the same external id
  does not change the stored booking. The route only calls
  `get_or_create_booking`, which returns an existing booking untouched.
  `Webhooks.StoredBookingNeverUpdated` proves that the status, amount and
  dates of a stored booking never change.
- **Failures give HTTP 500.** The route catches nothing after `json.loads`,
  so a database error or a `TypeError` leaves the handler as an HTTP 500
  (`Response.ServerError`). The rows committed before it stay.
- **The attribution window is not checked.** The route does not call
  `check_attribution_window` (a TODO in the source). The window check is
  modelled on its own, as `Attribution.CheckAttributionWindow`.

## Model

| member | source | states |
|---|---|---|
| Webhooks.Webhook | apartments-rental/app/api/routes_webhooks.py:41-156 | 401 exactly when the secret is wrong; "Invalid JSON" exactly when the body does not decode; `Duplicate` exactly when an event with this provider and hash is stored; these three answers write nothing |
| Webhooks.WebhookBooking | apartments-rental/app/api/routes_webhooks.py:41-156 | the handler run through a session, one committing crud call at a time, ends in the database and the response `Webhook` gives |
| Webhooks.Process | apartments-rental/app/api/routes_webhooks.py:88-156 | a parsed call stores exactly one event keyed by provider and hash; it never touches users, apartments or codes; it keeps the constraints and the one-event-per-hash property |
| Webhooks.Settle | apartments-rental/app/api/routes_webhooks.py:122-156 | a paid call with a code leaves a payout for the booking, adds payouts for no other booking and appends one `booking_paid` referral event for the code and the booking; any other call only stamps the event and reports `payout_created` false; constraints are kept |
| Webhooks.OneEventPerAcceptedCall | apartments-rental/app/api/routes_webhooks.py:58-95 | an accepted call (right secret, decodable, new hash) adds exactly one raw event with its provider and hash, whatever happens later; any other call changes nothing |
| Webhooks.WebhookKeepsValid | apartments-rental/app/db/models.py:177-290 | every call keeps all table constraints and at most one stored event per provider and hash |
| Webhooks.RedeliveryIsDuplicate | apartments-rental/app/api/routes_webhooks.py:58-67 | delivering the same bytes a second time is answered `Duplicate` and writes nothing, whatever the first delivery led to |
| Webhooks.UnparsedCallStoredProcessed | apartments-rental/app/api/routes_webhooks.py:73-85 | an unparsable call stores one event of type "unknown" under the payload's `id`, stamped as processed; nothing else is written; the answer is "Could not parse webhook" |
| Webhooks.StoredBookingNeverUpdated | apartments-rental/app/api/routes_webhooks.py:98-110 | a call for a stored external id leaves the bookings table as it was; the answer names the stored booking |
| Webhooks.NoPayoutUnlessPaid | apartments-rental/app/api/routes_webhooks.py:122-141 | a call whose normalised type is not "paid" writes no payout and no referral event |
| Webhooks.ProcessNotPaid | apartments-rental/app/api/routes_webhooks.py:122-141 | the same for the steps after the duplicate check |
| Webhooks.PayoutCreatedFlagOnExistingPayout | apartments-rental/app/api/routes_webhooks.py:122-156 | `payout_created` is true for a paid, attributed call even when the booking already had a payout; no payout row is written then, but the `booking_paid` event is still appended |
| Webhooks.PayoutCreatedMeansPayoutStored | apartments-rental/app/api/routes_webhooks.py:122-156 | after a call answered with `payout_created`, the booking named in the answer has a payout, and every new payout row is for that booking |
| Webhooks.PaidProcessRecordsPaidEvent | apartments-rental/app/api/routes_webhooks.py:122-141 | a processed paid call with a code appends exactly one `booking_paid` referral event, for a stored code and the booking, with no user, empty meta and the call's time |
| Webhooks.PayoutCreatedRecordsPaidEvent | apartments-rental/app/api/routes_webhooks.py:122-141 | after a call answered with `payout_created`, the referral events are the old ones plus one `booking_paid` event for a stored code and the booking named in the answer |
| Webhooks.MissingExternalIdLosesBooking | apartments-rental/app/api/routes_webhooks.py:88-110 | a parsed call without an external id is saved unstamped, creates no booking and ends in HTTP 500 |
| Webhooks.NonObjectBodyFails | apartments-rental/app/api/routes_webhooks.py:51-110 | a body that decodes to something other than an object ends in HTTP 500 |
| Webhooks.NewCallStoresBooking | apartments-rental/app/api/routes_webhooks.py:97-110 | a new accepted call with an external id appends exactly one booking row with the next id: the parsed status, dates, amount and currency, the raw body, and no apartment, user, lead or source tag; the answer names that booking or is HTTP 500 |
| Webhooks.ProcessStoresNewBooking | apartments-rental/app/api/routes_webhooks.py:97-110 | for a new external id, processing appends exactly the new booking row and answers with its id or HTTP 500 |
| Webhooks.ProcessExistingPayout | apartments-rental/app/api/routes_webhooks.py:122-130 | processing writes no payout row for a booking that already has one |
| Webhooks.BookingFieldsOf | apartments-rental/app/api/routes_webhooks.py:100-110 | the booking columns the route passes: the parsed status, dates, amount and currency and the raw body; never an apartment, a user, a lead or a source tag |
| Webhooks.SourceTag | apartments-rental/app/api/routes_webhooks.py:113 | the payload's `source_tag` when it is truthy, otherwise its `utm_source` |
| Webhooks.PaidTaggedBookingScenario | apartments-rental/app/api/routes_webhooks.py:98-156 | a new paid booking "BK-1" of 5000, tagged "partner_ABC123", with "ABC123" active: one booking with id 1 and status "paid", one pending payout of the configured amount, and the answer `payout_created` |
| Webhooks.ScenarioProcess | apartments-rental/app/api/routes_webhooks.py:88-156 | the scenario's steps after the duplicate check give that booking, payout and answer |
| Webhooks.ScenarioStored | apartments-rental/app/api/routes_webhooks.py:88-119 | in the scenario, the booking is stored first, with id 1, and attributed to the tagged code |
| Webhooks.FirstBooking | apartments-rental/app/db/crud.py:89-106 | the first booking inserted into an empty table gets id 1 and is reported as created |
| Webhooks.ProcessSettles | apartments-rental/app/api/routes_webhooks.py:88-122 | once the booking is stored and attribution succeeds, the call goes on to the payout step with that booking and code |
| Webhooks.ScenarioParse | apartments-rental/app/services/webhook_parser.py:69-114 | the scenario payload normalises to a paid booking "BK-1" of 5000 in RUB |
| Webhooks.TagNamesScenarioCode | apartments-rental/app/services/attribution.py:35-51 | the tag "partner_ABC123" selects the active code "ABC123" |
| Webhooks.SettlePaid | apartments-rental/app/services/referrals.py:45-58 | a paid, attributed call for a booking without a payout writes one pending payout and reports it |
| Store.Filter | apartments-rental/app/db/crud.py:48-49 | a `where` query: exactly the rows that satisfy the condition, never more rows than the table |
| Store.FilterAtMostOne | apartments-rental/app/db/models.py:180 | a key no two rows share matches at most one row |
| Store.FilterKeepsTwo | apartments-rental/app/services/attribution.py:54-67 | two matching rows leave at least two rows in the result |
| Store.OneOrNone | apartments-rental/app/db/crud.py:24-27 | `scalar_one_or_none`: `None` exactly for no row, the row exactly for one row, `MultipleResultsFound` exactly for more |
| Store.EmptyDbValid | apartments-rental/app/db/models.py:36-290 | empty tables satisfy every constraint |
| Store.Valid | apartments-rental/app/db/models.py:36-290 | the table constraints the webhook can reach: autoincrement ids in every table; unique Telegram ids; booking external ids unique and not null; currency not null; code texts and code owners unique; one payout per booking (`Store.EmptyDbValid` and `Webhooks.WebhookKeepsValid` show it holds and is kept) |
| Store.UserByTelegramId | apartments-rental/app/db/crud.py:22-35 | the user with that Telegram id; `None` exactly when no user has it; it never raises when `telegram_id` is unique |
| Store.InsertUser | apartments-rental/app/db/models.py:43 | the insert succeeds exactly when the Telegram id is new; it then appends the user with the next id and exactly the given Telegram id, username, phone, role, inviter and timestamps, and changes no other table; otherwise it changes nothing and raises the UNIQUE violation |
| Store.GetOrCreateUser | apartments-rental/app/db/crud.py:22-35 | on a valid table it always succeeds; a stored user with that Telegram id is returned as it is and nothing is written; otherwise exactly one new user with the given fields and the next id is appended, no other table changes, and that user is returned |
| Store.GetOrCreateUserExisting | apartments-rental/app/db/crud.py:22-35 | a stored user is returned as stored and nothing is written; the other arguments are ignored |
| Store.GetOrCreateUserIdempotent | apartments-rental/app/db/crud.py:22-35 | the first call keeps every constraint; a second call returns the same user and writes nothing |
| Store.HeadListedFirst | apartments-rental/app/db/crud.py:50 | the head of a list in `(sort_order, id)` order comes before every element |
| Store.ConsOrdered | apartments-rental/app/db/crud.py:50 | an element that comes before all of an ordered list can head it |
| Store.InsertListed | apartments-rental/app/db/crud.py:50 | inserting into an ordered list keeps it ordered and adds exactly that element |
| Store.OrderListed | apartments-rental/app/db/crud.py:50 | ordering by `(sort_order, id)` gives an ordered permutation of the rows |
| Store.ListApartments | apartments-rental/app/db/crud.py:45-53 | `list_apartments`: a permutation of the active apartments (of all when `active_only` is false), ordered by sort order and then id |
| Store.SameElements | apartments-rental/app/db/crud.py:45-53 | two permutations hold the same elements |
| Store.InactiveNotListed | apartments-rental/app/db/crud.py:45-53 | by default an inactive apartment is never listed |
| Store.BookingByExternalId | apartments-rental/app/db/crud.py:94-97 | the booking with that external id; `None` exactly when no booking has it; it never raises on a valid table |
| Store.InsertBooking | apartments-rental/app/db/models.py:177-200 | the insert fails on an empty external id or currency, or on a reused external id; otherwise it appends the new booking with the next id |
| Store.GetOrCreateBooking | apartments-rental/app/db/crud.py:89-106 | a stored booking comes back unchanged with `False`; otherwise the new booking with `True`; it always succeeds for a non-empty external id and currency; constraints are kept |
| Store.ExistingBookingUntouched | apartments-rental/app/db/crud.py:94-100 | the booking stored under the external id is returned and nothing is written, whatever the new fields say |
| Store.GetOrCreateBookingIdempotent | apartments-rental/app/db/crud.py:89-106 | a second call finds the first call's booking and writes nothing |
| Store.UpdateBookingStatus | apartments-rental/app/db/crud.py:109-116 | exactly the bookings with that id get the status and the update time; every other row and table is unchanged |
| Store.GetReferralCode | apartments-rental/app/db/crud.py:121-127 | the active code with exactly that text; `None` exactly when no active code has it |
| Store.CodeByUser | apartments-rental/app/db/crud.py:132-135 | the code owned by the user; `None` exactly when the user owns none |
| Store.CodeById | apartments-rental/app/services/attribution.py:91-98 | `session.get` by primary key: the code with that id, and with autoincrement ids the row at that position |
| Store.GeneratedCodeInjective | apartments-rental/app/db/crud.py:142 | `ref_<user id>_<hex>` determines both the user id and the hexadecimal part |
| Store.InsertCode | apartments-rental/app/db/models.py:206-218 | the insert succeeds exactly when neither the text nor the owner is taken; it then adds an active code with the next id |
| Store.GetOrCreateReferralCode | apartments-rental/app/db/crud.py:130-148 | the user's stored code is returned as it is and nothing is written; otherwise a new active code `ref_<user id>_<hex>` with the next id is appended, no other table changes, and it is returned; it fails only when another row holds the generated text, and then writes nothing |
| Store.GeneratedCodesNeverCollide | apartments-rental/app/db/crud.py:130-148 | when every stored code was generated for its owner, creating a user's code always succeeds |
| Store.StoredCodeReturned | apartments-rental/app/db/crud.py:132-138 | the user's stored code, active or switched off, is returned and nothing is written |
| Store.LogReferralEvent | apartments-rental/app/db/crud.py:151-155 | exactly one event is appended, with the next id and the given fields; nothing else changes |
| Store.AttributedRows | apartments-rental/app/db/crud.py:158-178 | the join returns exactly the codes that have a start event of the user inside the window |
| Store.GetAttributedReferralCode | apartments-rental/app/db/crud.py:158-178 | the code returned brought the user in with a start event inside the window; `None` exactly when no such event names an existing code; one joined row gives that row's code; `MultipleResultsFound` exactly when there are several rows |
| Store.TwoStartsAreAnError | apartments-rental/app/db/crud.py:158-178 | two start events of the user inside the window, even through the same code, raise `MultipleResultsFound` |
| Store.AttributedRowsCount | apartments-rental/app/db/crud.py:158-178 | the join gives one row per matching event, so two events give two rows |
| Store.EventByHash | apartments-rental/app/db/crud.py:192-204 | the stored event with that provider and hash; `None` exactly when there is none; it raises exactly when there are several |
| Store.EventKeys | apartments-rental/app/db/crud.py:192-204 | each stored event's duplicate key is its provider and payload hash |
| Store.EventByHashSucceeds | apartments-rental/app/db/crud.py:192-204 | with distinct keys the look-up never raises, and it finds an event exactly when the key is stored |
| Store.SaveWebhookEvent | apartments-rental/app/db/crud.py:183-189 | exactly one event is appended, with the next id, its receipt time and no processing time; constraints and distinct keys are kept for a new key |
| Store.MarkWebhookProcessed | apartments-rental/app/db/crud.py:207-213 | the event with that id gets its processing time; every other field, row and table stays |
| Store.PayoutByBooking | apartments-rental/app/services/referrals.py:33-42 | the booking's payout; `None` exactly when it has none; it never raises on a valid table |
| Store.InsertPayout | apartments-rental/app/db/models.py:256-270 | the insert succeeds exactly when the booking has no payout; it then appends a pending payout with the next id; otherwise it writes nothing and raises |
| Sessions.Session.constructor | apartments-rental/app/db/session.py:31-34 | a new session sees empty tables, which satisfy every constraint |
| Sessions.Session.GetOrCreateUser | apartments-rental/app/db/crud.py:22-35 | the tables and the result are those of `Store.GetOrCreateUser` (an existing user unchanged, or exactly one new user with the given fields); constraints are kept and the call succeeds |
| Sessions.Session.GetOrCreateBooking | apartments-rental/app/db/crud.py:89-106 | the tables and the result are those of `Store.GetOrCreateBooking`; constraints are kept |
| Sessions.Session.UpdateBookingStatus | apartments-rental/app/db/crud.py:109-116 | the tables are those of `Store.UpdateBookingStatus`; constraints are kept |
| Sessions.Session.GetOrCreateReferralCode | apartments-rental/app/db/crud.py:130-148 | the tables and the result are those of `Store.GetOrCreateReferralCode` (the stored code unchanged, or one new active `ref_<user id>_<hex>` code); constraints are kept |
| Sessions.Session.LogReferralEvent | apartments-rental/app/db/crud.py:151-155 | the tables are those of `Store.LogReferralEvent`; constraints are kept |
| Sessions.Session.SaveWebhookEvent | apartments-rental/app/db/crud.py:183-189 | the tables and the event are those of `Store.SaveWebhookEvent`; constraints are kept |
| Sessions.Session.MarkWebhookProcessed | apartments-rental/app/db/crud.py:207-213 | the tables are those of `Store.MarkWebhookProcessed`; constraints are kept |
| Sessions.Session.CreatePayoutForBooking | apartments-rental/app/services/referrals.py:19-71 | the tables and the result are those of `Referrals.CreatePayoutForBooking`; constraints are kept and the call succeeds |
| Referrals.TruncDiv10000 | apartments-rental/app/services/referrals.py:51 | `int(x / 10000)`: the quotient truncated toward zero, for both signs |
| Referrals.PayoutAmount | apartments-rental/app/services/referrals.py:45-51 | the fixed sum in "fixed" mode; in "percent" mode the percentage of the total truncated toward zero, and 0 for an empty or zero total; 0 in any other mode |
| Referrals.DefaultPayoutIsFixed | apartments-rental/app/config.py:33-34 | with the default settings every payout is 500 |
| Referrals.PercentExamples | apartments-rental/app/services/referrals.py:49-51 | five percent of 5000 is 250, of 199 is 9, and of -199 is -9 |
| Referrals.PercentWithinTotal | apartments-rental/app/services/referrals.py:49-51 | a rate of up to 100 percent pays between 0 and the total |
| Referrals.CreatePayoutForBooking | apartments-rental/app/services/referrals.py:19-71 | nothing is written when the booking already has a payout; otherwise one pending payout for the code and booking with the computed amount; on a valid table it succeeds and keeps one payout per booking |
| Referrals.CreatePayoutIdempotent | apartments-rental/app/services/referrals.py:33-42 | a second request for the same booking, even with another code, creates nothing; the booking ends with exactly one payout |
| Attribution.TagCode | apartments-rental/app/services/attribution.py:35-36 | a text tag never raises; the code found follows the last "partner_" of a tag that contains it; a falsy tag names no code; a tag that is not text may raise |
| Attribution.PartnerTagNamesCode | apartments-rental/app/services/attribution.py:35-36 | "partner_" followed by a code without the marker names exactly that code |
| Attribution.TagCodeHasNoMarker | apartments-rental/app/services/attribution.py:36 | the code found by a tag never contains "partner_" |
| Attribution.UserByPhone | apartments-rental/app/services/attribution.py:55-58 | the user with that phone; `None` exactly when nobody has it; it never raises when no two users share it |
| Attribution.OwnedCode | apartments-rental/app/services/attribution.py:60-67 | `user.referral_code`: the code the user owns; `None` exactly when the user owns none; it is the owner's only code |
| Attribution.PhoneRule | apartments-rental/app/services/attribution.py:54-67 | a code found by phone belongs to a stored user with exactly that phone; a falsy phone finds nothing, and so does a text phone that no user has; a truthy phone that is not text raises (`TypeFault`) |
| Attribution.AttributeBooking | apartments-rental/app/services/attribution.py:17-74 | an attributed code is a stored code; a tag that raises makes the call raise; an active code named by the tag is the answer; a tag that names no active code, or no tag, gives the phone rule's answer |
| Attribution.PhoneAttribution | apartments-rental/app/services/attribution.py:45-67 | when the tag names no active code, the one user with that phone brings the code they own |
| Attribution.AttributedCodeOrigin | apartments-rental/app/services/attribution.py:17-74 | an attributed code is either an active code named by the tag or the code of the user with that phone |
| Attribution.TagRuleWins | apartments-rental/app/services/attribution.py:35-51 | an active code named by the tag is the answer, whatever the phone |
| Attribution.TagFallsThrough | apartments-rental/app/services/attribution.py:45-54 | a tag that names no active code gives the phone rule's answer |
| Attribution.PhoneRuleGivesOwnersCode | apartments-rental/app/services/attribution.py:54-67 | the phone rule returns the code owned by the one user with that phone, active or switched off |
| Attribution.SharedPhoneIsAnError | apartments-rental/app/services/attribution.py:55-58 | two users with the same phone make the phone rule raise `MultipleResultsFound` |
| Attribution.PhoneOwnerWithoutCode | apartments-rental/app/services/attribution.py:54-67 | the one user with that phone who owns no code gives no code |
| Attribution.NoRuleNoCode | apartments-rental/app/services/attribution.py:17-74 | no code when the tag names no active code and the phone brings none: the phone is falsy, no user has it, or its one user owns no code |
| Attribution.CheckAttributionWindow | apartments-rental/app/services/attribution.py:77-125 | false for the code's own owner; otherwise true exactly when one start event of the user through the code is in the window, false exactly when none is, and `MultipleResultsFound` exactly when several are |
| Attribution.WindowBoundary | apartments-rental/app/services/attribution.py:101-114 | an event exactly at the start of the window counts; one a second earlier does not |
| Attribution.OneStartInWindow | apartments-rental/app/services/attribution.py:101-125 | one start event inside the window, for a code the user does not own, makes the check pass |
| WebhookParser.GetMapping | apartments-rental/app/services/webhook_parser.py:55-57 | a table exists exactly for "homereserve" and "booking_com", and it is that provider's table |
| WebhookParser.WalkAppend | apartments-rental/app/services/webhook_parser.py:116-130 | following a path `a + b` is following `a`, then `b` from where `a` ended |
| WebhookParser.WalkPresent | apartments-rental/app/services/webhook_parser.py:116-130 | a path whose keys are all present leads to a value; a missing key leads to nothing or to `None` |
| WebhookParser.GetValue | apartments-rental/app/services/webhook_parser.py:116-130 | the loop over the dotted key gives the value the path reading `Resolve` defines |
| WebhookParser.ResolvePlainKey | apartments-rental/app/services/webhook_parser.py:116-130 | a key without dots is `payload.get(key)`, with the default for a missing key or `None` |
| WebhookParser.ResolveKeepsFalsy | apartments-rental/app/services/webhook_parser.py:128-130 | the default replaces only a missing value or `None`; `0`, `""` and `false` are returned as they are |
| WebhookParser.ResolveThroughScalar | apartments-rental/app/services/webhook_parser.py:122-127 | a path through a value that is not an object gives the default, whatever keys follow |
| WebhookParser.ResolveNested | apartments-rental/app/services/webhook_parser.py:116-130 | `a.b` reads `b` inside the object stored under `a`, and gives the default otherwise |
| WebhookParser.NestedExample | apartments-rental/tests/test_webhook_parser.py:48-66 | "booking.id" gives "BK-999", "property.id" gives 100, "nonexistent.field" gives `None` |
| WebhookParser.NestedLookup | apartments-rental/app/services/webhook_parser.py:116-130 | a two-key look-up without a default is the dotted-path reading |
| WebhookParser.SafeInt | apartments-rental/app/services/webhook_parser.py:132-137 | falsy values, lists, objects and `None` give nothing; `True` gives 1; a number gives itself; text gives its integer when it parses |
| WebhookParser.NormalizeEventType | apartments-rental/app/services/webhook_parser.py:139-146 | a falsy status is "unknown"; text is looked up in the provider's table, else lower-cased; a truthy status that is not text raises |
| WebhookParser.NormalizedIsTableValueOrLower | apartments-rental/app/services/webhook_parser.py:139-146 | every normalised type is "unknown", a value of the table, or text without capitals |
| WebhookParser.CancelledSpellings | apartments-rental/app/services/webhook_parser.py:30-34 | "cancelled" becomes "canceled", but "CANCELLED" only becomes "cancelled": the table is read before lower-casing |
| WebhookParser.ToDict | apartments-rental/app/services/webhook_parser.py:83-97 | the normalised dictionary has exactly the ten canonical keys, and no "source_tag" |
| WebhookParser.UnknownProviderNotParsed | apartments-rental/app/services/webhook_parser.py:69-74 | an unregistered provider is never parsed |
| WebhookParser.Parse | apartments-rental/app/services/webhook_parser.py:69-114 | an unregistered provider gives nothing; a parsed record carries the provider it was asked for and always has a currency (the payload's or "RUB"); `ParseByKeys` and `ParseFailsIff` state each field and when parsing fails |
| WebhookParser.ParseFailsIff | apartments-rental/app/services/webhook_parser.py:69-114 | a registered provider's parse fails exactly when the status is truthy and not text |
| WebhookParser.ParseFailureNeedsObject | apartments-rental/app/services/webhook_parser.py:69-114 | a failed parse for a registered provider saw an object payload |
| WebhookParser.ParseCopiesProvider | apartments-rental/app/services/webhook_parser.py:83-97 | a successful parse copies the provider and has the ten canonical keys |
| WebhookParser.ParseCurrencyDefault | apartments-rental/app/services/webhook_parser.py:94 | the currency is the payload's own when present, and "RUB" when it is missing or `None` |
| WebhookParser.MappingsArePlain | apartments-rental/app/services/webhook_parser.py:19-53 | every path of both registered tables is a single top-level key |
| WebhookParser.HomeReserveIsPlain | apartments-rental/app/services/webhook_parser.py:20-35 | the HomeReserve table uses top-level keys only |
| WebhookParser.BookingComIsPlain | apartments-rental/app/services/webhook_parser.py:36-52 | the Booking.com table uses top-level keys only |
| WebhookParser.ParseByKeys | apartments-rental/app/services/webhook_parser.py:69-114 | a registered provider's parse reads each field with `payload.get` of its key |
| WebhookParser.PlainFields | apartments-rental/app/services/webhook_parser.py:83-97 | for a table of top-level keys, each field's path reading is a `payload.get` |
| WebhookParser.HomeReserveSample | apartments-rental/tests/test_webhook_parser.py:10-34 | the sample HomeReserve payload parses to "BK-12345", "paid", apartment 42, the two dates, 5000 and the phone |
| Config.WithDefaults | apartments-rental/app/config.py:12-35 | the defaults: no managers, tag parameter "tag", a 30-day window, "fixed" mode, 500, and 5.0 percent |
| Config.ParseIdList | apartments-rental/app/config.py:47-49 | the id list has at most one id per entry |
| Config.ManagerIdsGeneralRule | apartments-rental/app/config.py:51-55 | the separate empty-string case of `manager_ids` agrees with the general rule |
| Config.AdminIds | apartments-rental/app/config.py:47-49 | the comma-separated entries, stripped, blanks skipped, each read with `int()`; `Config.AdminIdsRoundTrip` shows that comma-joined id texts read back as the ids, and `Config.BadEntryFails` that a bad entry raises |
| Config.ManagerIds | apartments-rental/app/config.py:51-55 | the empty-string branch gives the empty list, and `Config.ManagerIdsGeneralRule` shows it agrees with the general parse |
| Config.IntTexts | apartments-rental/app/config.py:47-49 | each id written as its decimal text |
| Config.IntToStringPlain | apartments-rental/app/config.py:49 | an id's text has no comma and no surrounding whitespace |
| Config.ParseIdListTexts | apartments-rental/app/config.py:47-49 | reading back the texts of ids gives the ids |
| Config.AdminIdsRoundTrip | apartments-rental/app/config.py:47-49 | a list of ids written comma-separated reads back as `admin_ids` |
| Config.ParseIdListCons | apartments-rental/app/config.py:49 | an integer entry in front puts its value in front, and the list fails exactly when the rest does |
| Config.LeadingSpaceIgnored | apartments-rental/app/config.py:49 | whitespace in front of an entry is ignored |
| Config.BlankEntrySkipped | apartments-rental/app/config.py:49 | an entry of whitespace only is skipped |
| Config.BadEntryFails | apartments-rental/app/config.py:49 | a non-blank entry that is not an integer makes the whole list fail |
| Config.BlankEntriesSplit | apartments-rental/app/config.py:49 | " ,5," splits into a blank, "5" and an empty entry |
| Config.BlankEntriesParse | apartments-rental/app/config.py:49 | those entries read as the single id 5 |
| Config.IdListBlanks | apartments-rental/app/config.py:47-49 | " ,5," gives exactly `[5]` |
| Config.IdListNotANumber | apartments-rental/app/config.py:47-49 | "1,x" has no id list: the property raises |
| Config.WebhookUrl | apartments-rental/app/config.py:61-63 | the public base URL followed by the webhook path, nothing else |
| Models.BookingStatusOf | apartments-rental/app/db/models.py:170-174 | the status a stored text names, if any; no member carries a text that is not listed |
| Models.EnumTextsDistinct | apartments-rental/app/db/models.py:170-174 | the texts of each enumeration's members are pairwise distinct, so a stored text names one member |
| Models.DefaultBookingFields | apartments-rental/app/db/models.py:177-200 | a new booking defaults to status "created", currency "RUB" and empty references and amount |
| Models.NewBooking | apartments-rental/app/db/models.py:186-200 | a new booking row takes the id, the external id and the given columns, with `created_at` and `updated_at` both the insert's time; `Store.GetOrCreateBooking` and `Webhooks.NewCallStoresBooking` state which row is stored |
| Documents.Get | apartments-rental/app/api/routes_webhooks.py:108 | `dict.get`: the stored value, or `None` for a missing key |
| Documents.Field | apartments-rental/app/api/routes_webhooks.py:113 | `payload.get` on an object; a document that is not an object has no keys |
| Documents.Or | apartments-rental/app/api/routes_webhooks.py:113 | `a or b`: the first operand when truthy, otherwise the second |
| Text.Split | apartments-rental/app/config.py:49 | `str.split` on one character gives at least one part and no part holds the separator |
| Text.SplitJoin | apartments-rental/app/bot/utils.py:26 | splitting a join gives back parts that have no separator |
| Text.JoinSplit | apartments-rental/app/config.py:49 | joining a split gives back the text |
| Text.LastPieceSpec | apartments-rental/app/services/attribution.py:36 | `split(m)[-1]` holds no `m`, starts right after the last `m`, and is the whole text when there is no `m` |
| Text.LastPieceAfterMarker | apartments-rental/app/services/attribution.py:36 | the last piece of marker + code is the code, when the code has no marker |
| Text.Lower | apartments-rental/app/services/webhook_parser.py:146 | `lower()` maps each character to its lower case and keeps the length |
| Text.LowerIsLower | apartments-rental/app/services/webhook_parser.py:146 | lower-cased text has no capitals, and lower-casing is idempotent |
| Text.Strip | apartments-rental/app/config.py:49 | `strip()` is the middle of the text with the whitespace at both ends removed; it is empty exactly for whitespace-only text |
| Text.StripUnpadded | apartments-rental/app/config.py:49 | text without surrounding whitespace is its own strip |
| Text.ParseIntToString | apartments-rental/app/config.py:49 | `int(str(i)) == i` |
| Text.NatToStringInjective | apartments-rental/app/db/crud.py:142 | different numbers have different decimal texts |
| Text.LeadingZero | apartments-rental/app/bot/utils.py:77-78 | `int()` ignores a leading zero, so "02" reads as 2 |
| BotUtils.QuoteChar | apartments-rental/app/bot/utils.py:26 | `quote_plus` of one character is itself when unreserved, and otherwise escape characters only |
| BotUtils.QuotePlus | apartments-rental/app/bot/utils.py:26 | escaped text is made of unreserved characters, `+` and `%`, and is at least as long as the text |
| BotUtils.QuotePlusKeepsUnreserved | apartments-rental/app/bot/utils.py:26 | text of letters, digits and `_.-~` is passed through unchanged |
| BotUtils.QuotedHasNoSeparators | apartments-rental/app/bot/utils.py:26 | escaped text never holds `&`, `=` or `#` |
| BotUtils.DictSet | apartments-rental/app/bot/utils.py:19-24 | a dictionary display: a repeated key keeps its first position, a new key is appended |
| BotUtils.EncodedPairs | apartments-rental/app/bot/utils.py:26 | `urlencode` writes one `name=value` pair per item, both sides escaped |
| BotUtils.BuildBookingUrl | apartments-rental/app/bot/utils.py:12-27 | the link is the booking base URL followed by `?` and the query |
| BotUtils.BookingParams | apartments-rental/app/bot/utils.py:19-24 | the dictionary of four parameters in insertion order; `BotUtils.BookingParamsInOrder` lists them and `BotUtils.TagParamCollision` covers a tag name equal to a later key |
| BotUtils.UrlEncode | apartments-rental/app/bot/utils.py:26 | `urlencode`: the quoted pairs joined with "&"; `BotUtils.BookingUrlReadsBack` shows that `parse_qs` reads every parameter back |
| BotUtils.EncodedQuerySplits | apartments-rental/app/bot/utils.py:26 | splitting the query on `&`, then each pair on `=`, gives back the escaped names and values |
| BotUtils.BookingParamsInOrder | apartments-rental/app/bot/utils.py:19-24 | for a tag parameter other than the fixed names, the link carries the four parameters in order |
| BotUtils.BookingQueryPairs | apartments-rental/app/bot/utils.py:19-26 | the link's query splits into the four escaped pairs |
| BotUtils.UnhexHex | apartments-rental/app/bot/utils.py:26 | a hex digit written in upper case reads back as its value |
| BotUtils.UnquoteQuote | apartments-rental/app/bot/utils.py:26 | `unquote_plus(quote_plus(t)) == t` for ASCII text |
| BotUtils.DecodeEncodedPairs | apartments-rental/app/bot/utils.py:26 | reading the encoded pairs finds the first non-empty value the item list gives for each key |
| BotUtils.LinkQuery | apartments-rental/app/bot/utils.py:27 | for a base URL without `?` or `#`, the link's query is exactly the encoded parameters |
| BotUtils.BookingQueryDecodes | apartments-rental/app/bot/utils.py:12-27 | `parse_qs` on the link reads each parameter as the parameter list gives it |
| BotUtils.BookingUrlReadsBack | apartments-rental/app/bot/utils.py:12-27 | the link reads back the tag as the source, `utm_source` as "tg", `utm_medium` as the medium, and `utm_campaign` as "apartment_" + id; an empty source or medium is absent |
| BotUtils.BotLinkExample | apartments-rental/tests/test_utils.py:10-23 | apartment 123 from the bot: tag "tg_bot", medium "bot", campaign "apartment_123" |
| BotUtils.ChannelLinkExample | apartments-rental/tests/test_utils.py:26-34 | apartment 456 from the channel: tag "tg_channel", medium "channel" |
| BotUtils.TagParamCollision | apartments-rental/app/bot/utils.py:19-24 | a tag parameter named "utm_source" is overwritten with "tg"; the source is lost and three parameters remain |
| BotUtils.FeaturesLine | apartments-rental/app/bot/utils.py:34-35 | no features, or an empty list, gives the fallback text; otherwise the first five features joined by " • " |
| BotUtils.Shown | apartments-rental/app/bot/utils.py:35 | `features[:5]`: the first five features, or all of them when there are fewer |
| BotUtils.FeaturesPastFifthIgnored | apartments-rental/app/bot/utils.py:35 | features after the fifth never change the card |
| BotUtils.JoinedBullets | apartments-rental/app/bot/utils.py:35 | parts without bullets joined by " • " hold one bullet per gap |
| BotUtils.FeaturesShown | apartments-rental/app/bot/utils.py:34-35 | when no feature holds a bullet, the card shows as many features as there are, up to five |
| BotUtils.Pad2 | apartments-rental/app/bot/utils.py:82-83 | `{n:02d}`: at least two characters; a single digit gets a leading zero; larger numbers are written as they are |
| BotUtils.DayMonth | apartments-rental/app/bot/utils.py:77-78 | a part gives a day and a month exactly when it has two dot-separated fields that are both integers |
| BotUtils.ParseDateInput | apartments-rental/app/bot/utils.py:66-87 | a range exactly when there are two dash-separated parts, each a day and a month; the result is the two ISO dates in the given year |
| BotUtils.IsoDate | apartments-rental/app/bot/utils.py:82-83 | the year, then month and day padded to two digits, joined with "-"; `BotUtils.DateRangeExample` and `BotUtils.ParseDigitsRange` show it on parsed input |
| BotUtils.DigitsRead | apartments-rental/app/bot/utils.py:77-78 | digits read as their value |
| BotUtils.DayMonthOfDigits | apartments-rental/app/bot/utils.py:77-78 | "d.m" made of digits reads as that day and month |
| BotUtils.ParseDigitsRange | apartments-rental/app/bot/utils.py:66-87 | any "d.m-d.m" of digits gives the two ISO dates, with no check that the day or month exists |
| BotUtils.DateRangeExample | apartments-rental/tests/test_utils.py:37-42 | "15.02-17.02" in 2024 gives "2024-02-15" and "2024-02-17" |
| BotUtils.NoDashNoRange | apartments-rental/app/bot/utils.py:72-74 | text without "-" is no range |
| BotUtils.InvalidIsNone | apartments-rental/tests/test_utils.py:45-48 | "invalid" gives no range |

## Left out

- The SHA-256 digest of `calculate_payload_hash` is not computed. The route takes the digest as an input (`WebhookParser.Digest`: 64 lower-case hexadecimal characters).
- `json.loads` is not modelled. The route receives the already decoded body, or nothing when decoding fails.
- Asynchronous execution, concurrent requests and the database's isolation are not modelled. Two calls with the same hash in flight at once can both pass the duplicate check; the model runs calls one after another.
- `user.referral_code` is a lazy load: the relationship uses the default loader (`app/db/models.py:51`), and the route's session is an `AsyncSession` (`app/db/session.py:26-28`). Reading the attribute needs a query, which an `AsyncSession` refuses outside an `await`, so it raises `MissingGreenlet` every time rule 2 of `attribute_booking` finds a user with the phone, and the request ends in HTTP 500. The model instead reads the owner's code directly (`Attribution.OwnedCode`), that is, the behaviour the code evidently intends.
- The share `ref_payout_percent` is a float. It is modelled as an integer number of hundredths of a percent, applied exactly before truncation toward zero. Floating-point rounding is not modelled.
- The clock (`datetime.utcnow`, `datetime.now().year`) and `secrets.token_hex` are not read. They are parameters: `now`, `year` and `hex`.
- `str.lower`, `str.strip` and `int()` are modelled on ASCII only: ASCII letters, ASCII whitespace, an optional sign and ASCII digits. Unicode case mapping, Unicode digits and `_` separators in `int()` are not modelled.
- BotUtils.UnquotePlus: decodes every byte as one character, so the read-back lemmas hold for ASCII text only; UTF-8 decoding is not modelled.
- Column types and lengths, foreign keys, server defaults and the differences between database engines (Postgres or SQLite) are not modelled. Only the NOT NULL and UNIQUE constraints that the webhook can reach are checked.
- Logging (`log_webhook`, `log_service`) is left out: it has no effect on data.
- `get_user_by_id`, `get_apartment`, the lead helpers, `get_today_tomorrow`, `format_lead_brief` and every part of `format_apartment_card` except the features line only format text or run single look-ups. They are not part of this model.
- The bot's routers, keyboards and states, channel publishing, the admin panel and the application start-up are outside the booking pipeline. They are not part of this model.
- Store.InsertBooking: accepts any status text. The column is the enum `booking_status` (`app/db/models.py:189`), so a status outside "created", "confirmed", "paid" and "canceled" (say "pending" or "unknown") is refused by the database or fails on read-back in `refresh` (`app/db/crud.py:105`), an HTTP 500 after the raw event is saved. The model goes on to attribution instead. Whether and where this fails depends on the engine and on how SQLAlchemy maps the enum's names and values.
- WebhookParser.SafeInt: JSON numbers with a fraction or an exponent are not modelled (`Documents.Json` has integers only). In the source `_safe_int(5000.5)` is 5000 and `_safe_int(0.0)` is `None`; a float status or phone is likewise out of the model.
- Attribution.PhoneRule: a truthy phone that is not text (a number, a list, an object) is modelled as raising, as binding it to the text column `users.phone` does under Postgres. An engine that compares a number with text, such as SQLite, would instead look it up; that is not modelled.
- `check_attribution_window` is modelled, but the route never calls it: the webhook attributes bookings without a window check.
