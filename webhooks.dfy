/**
 * The booking webhook (`app/api/routes_webhooks.py`, `webhook_booking`):
 * secret check, duplicate check by payload hash, normalisation, the raw
 * event, the booking, attribution, the payout of a paid booking, and the
 * processing stamp.
 *
 * `Webhook` is the specification: the database after the call and the
 * response. Every crud call commits on its own, so when a later step raises
 * the rows written before it stay; `ServerError` is the HTTP 500 an
 * uncaught exception becomes. The request body reaches the model already
 * decoded (`None` when `json.loads` raises) together with its digest.
 */
module Webhooks {
  import opened Wrappers
  import opened Documents
  import opened Text
  import opened Config
  import opened Models
  import opened Store
  import opened WebhookParser
  import opened Attribution
  import opened Referrals
  import opened Sessions

  /** The route parses and deduplicates every call as coming from this provider. */
  const Provider: string := "homereserve"

  /** The answers of the route, by the JSON envelope or the status code they produce. */
  datatype Response =
    | Unauthorized                                 // 401
    | InvalidJson                                  // {"ok": false, "error": "Invalid JSON"}
    | Duplicate                                    // {"ok": true, "duplicate": true}
    | NotParsed                                    // {"ok": false, "error": "Could not parse webhook"}
    | Processed(bookingId: nat, payoutCreated: bool) // {"ok": true, "booking_id": ..., "payout_created": ...}
    | ServerError                                  // 500: an exception left the handler

  /** The columns `get_or_create_booking` receives for a parsed call; `parsed.get("source_tag")` is always `None`. */
  function BookingFieldsOf(p: Canonical, payload: Json): (f: BookingFields)
    ensures f.apartmentId == None && f.userId == None && f.leadId == None && f.sourceTag == None
    ensures f.status == p.eventType && f.checkIn == p.checkIn && f.checkOut == p.checkOut
    ensures f.totalAmount == p.totalAmount && f.currency == p.currency && f.rawPayload == payload
  {
    BookingFields(p.eventType, None, None, None, p.checkIn, p.checkOut, p.totalAmount, p.currency, None, payload)
  }

  /** `payload.get("source_tag") or payload.get("utm_source")`. */
  function SourceTag(payload: Json): (t: Json)
    ensures Truthy(Field(payload, "source_tag")) ==> t == Field(payload, "source_tag")
    ensures !Truthy(Field(payload, "source_tag")) ==> t == Field(payload, "utm_source")
  {
    Or(Field(payload, "source_tag"), Field(payload, "utm_source"))
  }

  /**
   * Steps 8 and 9: for a paid call with a code, the payout (when the booking
   * has none yet) and a `booking_paid` event; then the processing stamp.
   * `payout_created` reports that a payout was due, not that one was written.
   */
  function Settle(db: Db, s: Settings, ev: WebhookEvent, p: Canonical, booking: Booking,
                  code: Option<ReferralCode>, now: int): (r: (Db, Response))
    ensures r.1.Processed? || r.1.ServerError?
    ensures r.1.Processed? ==> r.1 == Processed(booking.id, p.eventType == "paid" && code.Some?)
    ensures r.1.Processed? ==> r.0.webhookEvents == MarkWebhookProcessed(db, ev.id, now).webhookEvents
    ensures r.1.ServerError? ==> r.0 == db
    ensures EventKeys(r.0.webhookEvents) == EventKeys(db.webhookEvents)
    ensures r.0.users == db.users && r.0.apartments == db.apartments && r.0.bookings == db.bookings && r.0.codes == db.codes
    ensures p.eventType != "paid" || code.None? ==>
      r == (MarkWebhookProcessed(db, ev.id, now), Processed(booking.id, false))
    ensures r.1 == Processed(booking.id, true) ==>
      (exists q :: q in r.0.payouts && q.bookingId == booking.id) &&
      (forall q :: q in r.0.payouts ==> q in db.payouts || q.bookingId == booking.id)
    ensures Valid(db) ==> Valid(r.0) && r.1.Processed?
    ensures p.eventType == "paid" && code.Some? && r.1.Processed? ==>
      r.0.referralEvents == db.referralEvents +
        [ReferralEvent(|db.referralEvents| + 1, code.value.id, None, BookingPaid, Some(booking.id), JNull, now)]
  {
    if p.eventType == "paid" && code.Some? then
      var (db1, pay) := CreatePayoutForBooking(db, code.value, booking, s, now);
      if pay.Failure? then (db1, ServerError)
      else
        var db2 := LogReferralEvent(db1, code.value.id, BookingPaid, None, Some(booking.id), JNull, now);
        (MarkWebhookProcessed(db2, ev.id, now), Processed(booking.id, true))
    else (MarkWebhookProcessed(db, ev.id, now), Processed(booking.id, false))
  }

  /**
   * Steps 5 to 9 for a parsed call: the raw event is saved first, then the
   * booking upserted by external id, the booking attributed, and settled.
   */
  function Process(db: Db, s: Settings, hash: string, payload: Json, p: Canonical, now: int): (r: (Db, Response))
    ensures r.1.Processed? || r.1.ServerError?
    ensures EventKeys(r.0.webhookEvents) == EventKeys(db.webhookEvents) + [(p.provider, hash)]
    ensures r.0.users == db.users && r.0.apartments == db.apartments && r.0.codes == db.codes
    ensures BookingsValid(db.bookings) ==> BookingsValid(r.0.bookings)
    ensures Valid(db) && HashesDistinct(db.webhookEvents) && (p.provider, hash) !in EventKeys(db.webhookEvents) ==>
      Valid(r.0) && HashesDistinct(r.0.webhookEvents)
  {
    var (db1, ev) := SaveWebhookEvent(db, p.provider, p.eventId, p.eventType, hash, payload, now);
    var (db2, got) := GetOrCreateBooking(db1, p.eventId, BookingFieldsOf(p, payload), now);
    if got.Failure? then (db2, ServerError)
    // `payload.get` raises on a body that is not a dictionary
    else if !payload.JObject? then (db2, ServerError)
    else match AttributeBooking(db2, SourceTag(payload), p.phone)
      case Failure(_) => (db2, ServerError)
      case Success(code) => Settle(db2, s, ev, p, got.value.0, code, now)
  }

  /** `webhook_booking`: the database after the call and the response. */
  function Webhook(db: Db, s: Settings, secret: Option<string>, hash: Digest, body: Option<Json>, now: int): (r: (Db, Response))
    ensures r.1 == Unauthorized <==> secret != Some(s.webhookSecret)
    ensures r.1 == InvalidJson <==> secret == Some(s.webhookSecret) && body.None?
    ensures r.1.Unauthorized? || r.1.InvalidJson? || r.1.Duplicate? ==> r.0 == db
    ensures r.1 == Duplicate <==>
      secret == Some(s.webhookSecret) && body.Some? && EventByHash(db, Provider, hash).Success? &&
      EventByHash(db, Provider, hash).value.Some?
  {
    if secret != Some(s.webhookSecret) then (db, Unauthorized)
    else if body.None? then (db, InvalidJson)
    else match EventByHash(db, Provider, hash)
      case Failure(_) => (db, ServerError)
      case Success(Some(_)) => (db, Duplicate)
      case Success(None) =>
        var payload := body.value;
        match Parse(Provider, payload)
        case None =>
          var (db1, ev) := SaveWebhookEvent(db, Provider, Field(payload, "id"), "unknown", hash, payload, now);
          (MarkWebhookProcessed(db1, ev.id, now), NotParsed)
        case Some(p) => Process(db, s, hash, payload, p, now)
  }

  /** `webhook_booking` on a session: each step commits through the session as the route's crud calls do. */
  method WebhookBooking(session: Session, s: Settings, secret: Option<string>, hash: Digest, body: Option<Json>, now: int)
    returns (response: Response)
    modifies session
    ensures (session.State(), response) == Webhook(old(session.State()), s, secret, hash, body, now)
  {
    if secret != Some(s.webhookSecret) {
      return Unauthorized;
    }
    if body.None? {
      return InvalidJson;
    }
    var payload := body.value;
    var existing := EventByHash(session.State(), Provider, hash);
    if existing.Failure? {
      return ServerError;
    }
    if existing.value.Some? {
      return Duplicate;
    }
    var parsed := Parse(Provider, payload);
    if parsed.None? {
      var event := session.SaveWebhookEvent(Provider, Field(payload, "id"), "unknown", hash, payload, now);
      session.MarkWebhookProcessed(event.id, now);
      return NotParsed;
    }
    var p := parsed.value;
    ghost var db0 := session.State();
    var event := session.SaveWebhookEvent(p.provider, p.eventId, p.eventType, hash, payload, now);
    var got := session.GetOrCreateBooking(p.eventId, BookingFieldsOf(p, payload), now);
    if got.Failure? {
      return ServerError;
    }
    var booking := got.value.0;
    if !payload.JObject? {
      return ServerError;
    }
    ghost var db2 := session.State();
    var code := AttributeBooking(session.State(), SourceTag(payload), p.phone);
    if code.Failure? {
      return ServerError;
    }
    assert Process(db0, s, hash, payload, p, now) == Settle(db2, s, event, p, booking, code.value, now);
    if p.eventType == "paid" && code.value.Some? {
      var payout := session.CreatePayoutForBooking(code.value.value, booking, s, now);
      if payout.Failure? {
        return ServerError;
      }
      session.LogReferralEvent(code.value.value.id, BookingPaid, None, Some(booking.id), JNull, now);
    }
    session.MarkWebhookProcessed(event.id, now);
    response := Processed(booking.id, p.eventType == "paid" && code.value.Some?);
  }

  /** A call that passes the secret, decodes, and is new: the one case in which the route writes. */
  predicate Accepted(db: Db, s: Settings, secret: Option<string>, hash: string, body: Option<Json>) {
    secret == Some(s.webhookSecret) && body.Some? && EventByHash(db, Provider, hash) == Success(None)
  }

  /**
   * An accepted call stores exactly one raw event, keyed by the provider and
   * the hash, whatever happens after; any other call stores none.
   */
  lemma OneEventPerAcceptedCall(db: Db, s: Settings, secret: Option<string>, hash: Digest, body: Option<Json>, now: int)
    ensures var (db', _) := Webhook(db, s, secret, hash, body, now);
      if Accepted(db, s, secret, hash, body) then EventKeys(db'.webhookEvents) == EventKeys(db.webhookEvents) + [(Provider, hash)]
      else db' == db
  {
    if Accepted(db, s, secret, hash, body) && Parse(Provider, body.value).Some? {
      ParseCopiesProvider(Provider, body.value);
    }
  }

  /** The route keeps every table constraint and keeps at most one event per provider and hash. */
  lemma WebhookKeepsValid(db: Db, s: Settings, secret: Option<string>, hash: Digest, body: Option<Json>, now: int)
    requires Valid(db) && HashesDistinct(db.webhookEvents)
    ensures var (db', _) := Webhook(db, s, secret, hash, body, now);
      Valid(db') && HashesDistinct(db'.webhookEvents)
  {
    if Accepted(db, s, secret, hash, body) {
      EventByHashSucceeds(db, Provider, hash);
      if Parse(Provider, body.value).Some? {
        ParseCopiesProvider(Provider, body.value);
      }
    }
  }

  /**
   * Delivering the same bytes again answers `Duplicate` and writes nothing,
   * whatever the first delivery led to: a parse failure, a booking, or an
   * exception after the raw event was saved.
   */
  lemma RedeliveryIsDuplicate(db: Db, s: Settings, hash: Digest, body: Json, now: int, now': int)
    requires Valid(db) && HashesDistinct(db.webhookEvents)
    ensures var (db1, r1) := Webhook(db, s, Some(s.webhookSecret), hash, Some(body), now);
      Webhook(db1, s, Some(s.webhookSecret), hash, Some(body), now') == (db1, Duplicate)
  {
    var (db1, r1) := Webhook(db, s, Some(s.webhookSecret), hash, Some(body), now);
    EventByHashSucceeds(db, Provider, hash);
    OneEventPerAcceptedCall(db, s, Some(s.webhookSecret), hash, Some(body), now);
    WebhookKeepsValid(db, s, Some(s.webhookSecret), hash, Some(body), now);
    EventByHashSucceeds(db1, Provider, hash);
    assert (Provider, hash) in EventKeys(db1.webhookEvents) by {
      if !r1.Duplicate? {
        assert EventKeys(db1.webhookEvents)[|db.webhookEvents|] == (Provider, hash);
      }
    }
  }

  /** A call that cannot be parsed is stored once, as type "unknown", already stamped, and nothing else is written. */
  lemma UnparsedCallStoredProcessed(db: Db, s: Settings, hash: Digest, payload: Json, now: int)
    requires WebhookEventsValid(db.webhookEvents)
    requires Accepted(db, s, Some(s.webhookSecret), hash, Some(payload)) && Parse(Provider, payload).None?
    ensures Webhook(db, s, Some(s.webhookSecret), hash, Some(payload), now) ==
      (db.(webhookEvents := db.webhookEvents +
         [WebhookEvent(|db.webhookEvents| + 1, Provider, Field(payload, "id"), "unknown", hash, now, Some(now), payload)]),
       NotParsed)
  {
    var ws := db.webhookEvents;
    var (db1, ev) := SaveWebhookEvent(db, Provider, Field(payload, "id"), "unknown", hash, payload, now);
    var db2 := MarkWebhookProcessed(db1, ev.id, now);
    var want := ws + [ev.(processedAt := Some(now))];
    assert forall i :: 0 <= i < |ws| ==> ws[i].id != ev.id;
    assert db2.webhookEvents == want;
  }

  /**
   * A call for an external id already stored never changes that booking:
   * its status, amount and dates stay as first written; the answer names
   * the stored booking.
   */
  lemma StoredBookingNeverUpdated(db: Db, s: Settings, hash: Digest, payload: Json, now: int, b: Booking)
    requires Valid(db) && Accepted(db, s, Some(s.webhookSecret), hash, Some(payload))
    requires Parse(Provider, payload).Some?
    requires b in db.bookings && b.externalId == Parse(Provider, payload).value.eventId
    ensures var (db', r) := Webhook(db, s, Some(s.webhookSecret), hash, Some(payload), now);
      db'.bookings == db.bookings && (r.ServerError? || (r.Processed? && r.bookingId == b.id))
  {
    var p := Parse(Provider, payload).value;
    var (db1, ev) := SaveWebhookEvent(db, p.provider, p.eventId, p.eventType, hash, payload, now);
    ExistingBookingUntouched(db1, p.eventId, BookingFieldsOf(p, payload), now, b);
  }

  /** Only a paid call writes payouts or referral events. */
  lemma NoPayoutUnlessPaid(db: Db, s: Settings, secret: Option<string>, hash: Digest, payload: Json, now: int)
    requires Parse(Provider, payload).Some? && Parse(Provider, payload).value.eventType != "paid"
    ensures var (db', _) := Webhook(db, s, secret, hash, Some(payload), now);
      db'.payouts == db.payouts && db'.referralEvents == db.referralEvents
  {
    if secret == Some(s.webhookSecret) && EventByHash(db, Provider, hash) == Success(None) {
      ProcessNotPaid(db, s, hash, payload, Parse(Provider, payload).value, now);
    }
  }

  lemma ProcessNotPaid(db: Db, s: Settings, hash: string, payload: Json, p: Canonical, now: int)
    requires p.eventType != "paid"
    ensures var (db', _) := Process(db, s, hash, payload, p, now);
      db'.payouts == db.payouts && db'.referralEvents == db.referralEvents
  {
    var (db1, ev) := SaveWebhookEvent(db, p.provider, p.eventId, p.eventType, hash, payload, now);
    var (db2, got) := GetOrCreateBooking(db1, p.eventId, BookingFieldsOf(p, payload), now);
    assert db2.payouts == db.payouts && db2.referralEvents == db.referralEvents;
    if got.Success? && payload.JObject? && AttributeBooking(db2, SourceTag(payload), p.phone).Success? {
      ProcessSettles(db, s, hash, payload, p, now);
    }
  }

  /**
   * `payout_created` is true for a paid call with a code even when the
   * booking already had its payout: then no payout row is written.
   */
  lemma PayoutCreatedFlagOnExistingPayout(db: Db, s: Settings, hash: Digest, payload: Json, now: int, q: Payout)
    requires Valid(db) && Accepted(db, s, Some(s.webhookSecret), hash, Some(payload))
    requires var (_, r) := Webhook(db, s, Some(s.webhookSecret), hash, Some(payload), now);
      r.Processed? && r.payoutCreated && q in db.payouts && q.bookingId == r.bookingId
    ensures Webhook(db, s, Some(s.webhookSecret), hash, Some(payload), now).0.payouts == db.payouts
    ensures var (db', r) := Webhook(db, s, Some(s.webhookSecret), hash, Some(payload), now);
      exists c :: c in db.codes && db'.referralEvents == db.referralEvents +
        [ReferralEvent(|db.referralEvents| + 1, c.id, None, BookingPaid, Some(r.bookingId), JNull, now)]
  {
    ProcessExistingPayout(db, s, hash, payload, Parse(Provider, payload).value, now, q);
    PayoutCreatedRecordsPaidEvent(db, s, Some(s.webhookSecret), hash, Some(payload), now);
  }

  /** `Process` writes no payout row for a booking that already has one. */
  lemma ProcessExistingPayout(db: Db, s: Settings, hash: string, payload: Json, p: Canonical, now: int, q: Payout)
    requires var (_, r) := Process(db, s, hash, payload, p, now);
      r.Processed? && r.payoutCreated && q in db.payouts && q.bookingId == r.bookingId
    ensures Process(db, s, hash, payload, p, now).0.payouts == db.payouts
  {
    var (db1, ev) := SaveWebhookEvent(db, p.provider, p.eventId, p.eventType, hash, payload, now);
    var (db2, got) := GetOrCreateBooking(db1, p.eventId, BookingFieldsOf(p, payload), now);
    assert got.Success? && payload.JObject? && db2.payouts == db.payouts;
    var code := AttributeBooking(db2, SourceTag(payload), p.phone).value.value;
    ProcessSettles(db, s, hash, payload, p, now);
    var (db3, pay) := CreatePayoutForBooking(db2, code, got.value.0, s, now);
    assert q in db2.payouts;
  }

  /** When the reported booking has a payout afterwards, every new payout row is that booking's. */
  lemma PayoutCreatedMeansPayoutStored(db: Db, s: Settings, secret: Option<string>, hash: Digest, body: Option<Json>, now: int)
    requires var (_, r) := Webhook(db, s, secret, hash, body, now); r.Processed? && r.payoutCreated
    ensures var (db', r) := Webhook(db, s, secret, hash, body, now);
      (exists q :: q in db'.payouts && q.bookingId == r.bookingId) &&
      (forall q :: q in db'.payouts ==> q in db.payouts || q.bookingId == r.bookingId)
  {
    var payload := body.value;
    var p := Parse(Provider, payload).value;
    var (db1, ev) := SaveWebhookEvent(db, p.provider, p.eventId, p.eventType, hash, payload, now);
    var (db2, got) := GetOrCreateBooking(db1, p.eventId, BookingFieldsOf(p, payload), now);
    assert db2.payouts == db.payouts;
  }

  /** A processed paid call with a code appends one `booking_paid` event for that code and booking. */
  lemma PaidProcessRecordsPaidEvent(db: Db, s: Settings, hash: string, payload: Json, p: Canonical, now: int)
    requires var (_, r) := Process(db, s, hash, payload, p, now); r.Processed? && r.payoutCreated
    ensures var (db', r) := Process(db, s, hash, payload, p, now);
      exists c :: c in db.codes && db'.referralEvents == db.referralEvents +
        [ReferralEvent(|db.referralEvents| + 1, c.id, None, BookingPaid, Some(r.bookingId), JNull, now)]
  {
    var (db1, ev) := SaveWebhookEvent(db, p.provider, p.eventId, p.eventType, hash, payload, now);
    var (db2, got) := GetOrCreateBooking(db1, p.eventId, BookingFieldsOf(p, payload), now);
    assert db2.referralEvents == db.referralEvents && db2.codes == db.codes;
    assert got.Success? && payload.JObject?;
    var code := AttributeBooking(db2, SourceTag(payload), p.phone).value.value;
    ProcessSettles(db, s, hash, payload, p, now);
    assert code in db.codes;
  }

  /** `payout_created` in the response goes with the `booking_paid` referral event the route records for a paid booking with a code. */
  lemma PayoutCreatedRecordsPaidEvent(db: Db, s: Settings, secret: Option<string>, hash: Digest, body: Option<Json>, now: int)
    requires var (_, r) := Webhook(db, s, secret, hash, body, now); r.Processed? && r.payoutCreated
    ensures var (db', r) := Webhook(db, s, secret, hash, body, now);
      exists c :: c in db.codes && db'.referralEvents == db.referralEvents +
        [ReferralEvent(|db.referralEvents| + 1, c.id, None, BookingPaid, Some(r.bookingId), JNull, now)]
  {
    PaidProcessRecordsPaidEvent(db, s, hash, body.value, Parse(Provider, body.value).value, now);
  }

  /**
   * A call without an external id is saved but can never make a booking:
   * the insert violates NOT NULL, the event stays unstamped, and every
   * re-delivery of the same bytes is answered as a duplicate.
   */
  lemma MissingExternalIdLosesBooking(db: Db, s: Settings, hash: Digest, payload: Json, now: int)
    requires Valid(db) && Accepted(db, s, Some(s.webhookSecret), hash, Some(payload))
    requires Parse(Provider, payload).Some? && Parse(Provider, payload).value.eventId == JNull
    ensures var (db', r) := Webhook(db, s, Some(s.webhookSecret), hash, Some(payload), now);
      && r == ServerError
      && db'.bookings == db.bookings
      && db'.webhookEvents == db.webhookEvents + [WebhookEvent(|db.webhookEvents| + 1, Provider, JNull,
           Parse(Provider, payload).value.eventType, hash, now, None, payload)]
  {
    ParseCopiesProvider(Provider, payload);
    var p := Parse(Provider, payload).value;
    var (db1, ev) := SaveWebhookEvent(db, p.provider, p.eventId, p.eventType, hash, payload, now);
    var (db2, got) := GetOrCreateBooking(db1, p.eventId, BookingFieldsOf(p, payload), now);
    assert BookingsValid(db1.bookings);
    assert got.Failure? && db2 == db1;
    assert Process(db, s, hash, payload, p, now) == (db1, ServerError);
  }

  /**
   * A new accepted call with an external id stores exactly one booking row:
   * the parsed status, dates, amount and currency, the raw body, no
   * apartment, user, lead or source tag (the route passes none of them), and
   * the next id; the answer names that booking or is a server error.
   */
  lemma NewCallStoresBooking(db: Db, s: Settings, hash: Digest, payload: Json, now: int)
    requires Valid(db) && Accepted(db, s, Some(s.webhookSecret), hash, Some(payload))
    requires Parse(Provider, payload).Some? && Parse(Provider, payload).value.eventId != JNull
    requires forall b :: b in db.bookings ==> b.externalId != Parse(Provider, payload).value.eventId
    ensures var p := Parse(Provider, payload).value;
      var (db', r) := Webhook(db, s, Some(s.webhookSecret), hash, Some(payload), now);
      var b := NewBooking(|db.bookings| + 1, p.eventId, BookingFieldsOf(p, payload), now);
      && db'.bookings == db.bookings + [b]
      && b.status == p.eventType && b.apartmentId == None && b.userId == None && b.leadId == None
      && b.sourceTag == None && b.checkIn == p.checkIn && b.checkOut == p.checkOut
      && b.totalAmount == p.totalAmount && b.currency == p.currency && b.rawPayload == payload
      && ((r.Processed? && r.bookingId == b.id) || r == ServerError)
  {
    ParseCopiesProvider(Provider, payload);
    ParseCurrencyDefault(Provider, payload);
    ProcessStoresNewBooking(db, s, hash, payload, Parse(Provider, payload).value, now);
  }

  /** `Process` on a call whose external id is new: the booking row it appends, and the answer. */
  lemma ProcessStoresNewBooking(db: Db, s: Settings, hash: string, payload: Json, p: Canonical, now: int)
    requires BookingsValid(db.bookings) && p.eventId != JNull && p.currency != JNull
    requires forall b :: b in db.bookings ==> b.externalId != p.eventId
    ensures var (db', r) := Process(db, s, hash, payload, p, now);
      var b := NewBooking(|db.bookings| + 1, p.eventId, BookingFieldsOf(p, payload), now);
      db'.bookings == db.bookings + [b] && ((r.Processed? && r.bookingId == b.id) || r == ServerError)
  {
    var (db1, ev) := SaveWebhookEvent(db, p.provider, p.eventId, p.eventType, hash, payload, now);
    var (db2, got) := GetOrCreateBooking(db1, p.eventId, BookingFieldsOf(p, payload), now);
    var b := NewBooking(|db.bookings| + 1, p.eventId, BookingFieldsOf(p, payload), now);
    assert BookingsValid(db1.bookings) && db1.bookings == db.bookings;
    assert got == Success((b, true)) && db2.bookings == db.bookings + [b];
  }

  /** A body that is valid JSON but not an object never reaches attribution: it has no external id. */
  lemma NonObjectBodyFails(db: Db, s: Settings, hash: Digest, payload: Json, now: int)
    requires Valid(db) && Accepted(db, s, Some(s.webhookSecret), hash, Some(payload)) && !payload.JObject?
    ensures Webhook(db, s, Some(s.webhookSecret), hash, Some(payload), now).1 == ServerError
  {
    ParseByKeys(Provider, payload, HomeReserve);
    MissingExternalIdLosesBooking(db, s, hash, payload, now);
  }

  /**
   * The end-to-end scenario: a new paid HomeReserve booking "BK-1" tagged
   * "partner_ABC123", with the code "ABC123" active, gives one booking with
   * status "paid" and one pending payout for it, and `payout_created`.
   */
  lemma PaidTaggedBookingScenario(db: Db, s: Settings, hash: Digest, payload: Json, now: int, c: ReferralCode)
    requires Valid(db) && HashesDistinct(db.webhookEvents)
    requires db.bookings == [] && db.payouts == [] && db.webhookEvents == []
    requires c in db.codes && c.code == "ABC123" && c.isActive
    requires payload.JObject?
    requires var f := payload.fields;
      Get(f, "booking_id") == JString("BK-1") && Get(f, "status") == JString("paid")
      && Get(f, "price") == JInt(5000) && Get(f, "currency") == JString("RUB")
      && Get(f, "source_tag") == JString("partner_ABC123")
    ensures var (db', r) := Webhook(db, s, Some(s.webhookSecret), hash, Some(payload), now);
      && r == Processed(1, true)
      && |db'.bookings| == 1
      && db'.bookings[0].externalId == JString("BK-1") && db'.bookings[0].status == "paid"
      && db'.payouts == [Payout(1, c.id, 1, PayoutAmount(s, Some(5000)), PayoutPending, now, now)]
  {
    ScenarioParse(payload);
    var p := Parse(Provider, payload).value;
    assert Webhook(db, s, Some(s.webhookSecret), hash, Some(payload), now) == Process(db, s, hash, payload, p, now);
    ScenarioProcess(db, s, hash, payload, p, now, c);
  }

  lemma ScenarioProcess(db: Db, s: Settings, hash: string, payload: Json, p: Canonical, now: int, c: ReferralCode)
    requires CodesValid(db.codes) && db.bookings == [] && db.payouts == []
    requires c in db.codes && c.code == "ABC123" && c.isActive
    requires payload.JObject? && Get(payload.fields, "source_tag") == JString("partner_ABC123")
    requires p.eventId == JString("BK-1") && p.eventType == "paid" && p.totalAmount == Some(5000) && p.currency == JString("RUB")
    ensures var (db', r) := Process(db, s, hash, payload, p, now);
      && r == Processed(1, true)
      && |db'.bookings| == 1
      && db'.bookings[0].externalId == JString("BK-1") && db'.bookings[0].status == "paid"
      && db'.payouts == [Payout(1, c.id, 1, PayoutAmount(s, Some(5000)), PayoutPending, now, now)]
  {
    var (db1, ev) := SaveWebhookEvent(db, p.provider, p.eventId, p.eventType, hash, payload, now);
    var b := NewBooking(1, JString("BK-1"), BookingFieldsOf(p, payload), now);
    var db2 := db1.(bookings := [b]);
    ScenarioStored(db, s, hash, payload, p, now, c);
    assert db2.payouts == [] && b.id == 1 && b.totalAmount == Some(5000);
    SettlePaid(db2, s, ev, p, b, c, now);
  }

  /** The scenario's call stores its booking as the first one and settles it with the tagged code. */
  lemma ScenarioStored(db: Db, s: Settings, hash: string, payload: Json, p: Canonical, now: int, c: ReferralCode)
    requires CodesValid(db.codes) && db.bookings == []
    requires c in db.codes && c.code == "ABC123" && c.isActive
    requires payload.JObject? && Get(payload.fields, "source_tag") == JString("partner_ABC123")
    requires p.eventId == JString("BK-1") && p.currency == JString("RUB")
    ensures var (db1, ev) := SaveWebhookEvent(db, p.provider, p.eventId, p.eventType, hash, payload, now);
      var b := NewBooking(1, JString("BK-1"), BookingFieldsOf(p, payload), now);
      Process(db, s, hash, payload, p, now) == Settle(db1.(bookings := [b]), s, ev, p, b, Some(c), now)
  {
    var (db1, ev) := SaveWebhookEvent(db, p.provider, p.eventId, p.eventType, hash, payload, now);
    var b := NewBooking(1, JString("BK-1"), BookingFieldsOf(p, payload), now);
    FirstBooking(db1, JString("BK-1"), BookingFieldsOf(p, payload), now);
    TagNamesScenarioCode(db1.(bookings := [b]), payload, p.phone, c);
    ProcessSettles(db, s, hash, payload, p, now);
  }

  /** Into an empty bookings table the first booking goes with id 1. */
  lemma FirstBooking(db: Db, externalId: Json, f: BookingFields, now: int)
    requires db.bookings == [] && externalId != JNull && f.currency != JNull
    ensures GetOrCreateBooking(db, externalId, f, now) ==
      (db.(bookings := [NewBooking(1, externalId, f, now)]), Success((NewBooking(1, externalId, f, now), true)))
  {
    assert BookingByExternalId(db, externalId) == Success(None);
    assert db.bookings + [NewBooking(1, externalId, f, now)] == [NewBooking(1, externalId, f, now)];
  }

  /** A parsed call whose booking is stored and attributed goes on to be settled. */
  lemma ProcessSettles(db: Db, s: Settings, hash: string, payload: Json, p: Canonical, now: int)
    requires payload.JObject?
    ensures var (db1, ev) := SaveWebhookEvent(db, p.provider, p.eventId, p.eventType, hash, payload, now);
      var (db2, got) := GetOrCreateBooking(db1, p.eventId, BookingFieldsOf(p, payload), now);
      var code := AttributeBooking(db2, SourceTag(payload), p.phone);
      got.Success? && code.Success? ==> Process(db, s, hash, payload, p, now) == Settle(db2, s, ev, p, got.value.0, code.value, now)
  {
  }

  /** The scenario's payload is parsed as a paid booking "BK-1" of 5000. */
  lemma ScenarioParse(payload: Json)
    requires payload.JObject?
    requires var f := payload.fields;
      Get(f, "booking_id") == JString("BK-1") && Get(f, "status") == JString("paid") && Get(f, "price") == JInt(5000)
      && Get(f, "currency") == JString("RUB")
    ensures Parse(Provider, payload).Some?
    ensures var p := Parse(Provider, payload).value;
      p.provider == Provider && p.eventId == JString("BK-1") && p.eventType == "paid" && p.totalAmount == Some(5000)
      && p.currency == JString("RUB")
  {
    ParseByKeys(Provider, payload, HomeReserve);
  }

  /** The tag "partner_ABC123" selects the active code "ABC123". */
  lemma TagNamesScenarioCode(db: Db, payload: Json, phone: Json, c: ReferralCode)
    requires CodesValid(db.codes) && c in db.codes && c.code == "ABC123" && c.isActive
    requires payload.JObject? && Get(payload.fields, "source_tag") == JString("partner_ABC123")
    ensures AttributeBooking(db, SourceTag(payload), phone) == Success(Some(c))
  {
    ShortTextHasNoMarker("ABC123");
    PartnerTagNamesCode("ABC123");
    TagText();
    TagRuleWins(db, "partner_ABC123", phone, c);
  }

  /** A paid call with a code for a booking without a payout writes one pending payout and reports it. */
  lemma SettlePaid(db: Db, s: Settings, ev: WebhookEvent, p: Canonical, booking: Booking, c: ReferralCode, now: int)
    requires PayoutsValid(db.payouts) && p.eventType == "paid"
    requires forall q :: q in db.payouts ==> q.bookingId != booking.id
    ensures var (db', r) := Settle(db, s, ev, p, booking, Some(c), now);
      && r == Processed(booking.id, true)
      && db'.payouts == db.payouts + [Payout(|db.payouts| + 1, c.id, booking.id, PayoutAmount(s, booking.totalAmount), PayoutPending, now, now)]
  {
  }

  lemma TagText()
    ensures PartnerMarker + "ABC123" == "partner_ABC123"
  {
  }

  /** A text shorter than the marker cannot contain it. */
  lemma ShortTextHasNoMarker(t: string)
    requires |t| < |PartnerMarker|
    ensures !Contains(t, PartnerMarker)
  {
  }
}
