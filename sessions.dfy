/**
 * The database session the crud helpers and the payout service work
 * through: the seven tables as fields, changed in place. Every method
 * commits at once, as each helper of `app/db/crud.py` does, and is proved
 * to leave the tables as the matching function of `Store` (or `Referrals`)
 * says, so the properties proved about those functions hold of the session.
 */
module Sessions {
  import opened Wrappers
  import opened Documents
  import opened Config
  import opened Models
  import opened Store
  import opened Referrals

  class Session {
    var users: seq<User>
    var apartments: seq<Apartment>
    var bookings: seq<Booking>
    var codes: seq<ReferralCode>
    var referralEvents: seq<ReferralEvent>
    var payouts: seq<Payout>
    var webhookEvents: seq<WebhookEvent>

    /** The committed content of the tables. */
    function State(): Db
      reads this
    {
      Db(users, apartments, bookings, codes, referralEvents, payouts, webhookEvents)
    }

    /** Every table constraint holds. */
    predicate Valid()
      reads this
    {
      Store.Valid(State())
    }

    /** A session on an empty database. */
    constructor()
      ensures State() == EmptyDb() && Valid()
    {
      users, apartments, bookings, codes := [], [], [], [];
      referralEvents, payouts, webhookEvents := [], [], [];
    }

    /** `get_or_create_user`. */
    method GetOrCreateUser(telegramId: int, username: Option<string>, phone: Option<string>,
                           role: UserRole, inviterUserId: Option<nat>, now: int) returns (r: Result<User, DbError>)
      modifies this
      ensures (State(), r) == Store.GetOrCreateUser(old(State()), telegramId, username, phone, role, inviterUserId, now)
      ensures old(Valid()) ==> Valid() && r.Success?
    {
      var found := UserByTelegramId(State(), telegramId);
      if found.Failure? {
        return Failure(found.error);
      }
      if found.value.Some? {
        return Success(found.value.value);
      }
      var u := User(|users| + 1, telegramId, username, phone, role, inviterUserId, now, now);
      users := users + [u];
      r := Success(u);
    }

    /** `get_or_create_booking`: the stored booking and `false`, or the new one and `true`. */
    method GetOrCreateBooking(externalId: Json, f: BookingFields, now: int) returns (r: Result<(Booking, bool), DbError>)
      modifies this
      ensures (State(), r) == Store.GetOrCreateBooking(old(State()), externalId, f, now)
      ensures old(Valid()) ==> Valid()
    {
      var found := BookingByExternalId(State(), externalId);
      if found.Failure? {
        return Failure(found.error);
      }
      if found.value.Some? {
        return Success((found.value.value, false));
      }
      if externalId == JNull {
        return Failure(NotNullViolation("bookings.external_id"));
      }
      if f.currency == JNull {
        return Failure(NotNullViolation("bookings.currency"));
      }
      var b := NewBooking(|bookings| + 1, externalId, f, now);
      bookings := bookings + [b];
      r := Success((b, true));
    }

    /** `update_booking_status`. */
    method UpdateBookingStatus(bookingId: int, status: string, now: int)
      modifies this
      ensures State() == Store.UpdateBookingStatus(old(State()), bookingId, status, now)
      ensures old(Valid()) ==> Valid()
    {
      bookings := Store.UpdateBookingStatus(State(), bookingId, status, now).bookings;
    }

    /** `get_or_create_referral_code`, with the random part of the new code given. */
    method GetOrCreateReferralCode(userId: nat, hex: string, now: int) returns (r: Result<ReferralCode, DbError>)
      requires TokenHex(hex)
      modifies this
      ensures (State(), r) == Store.GetOrCreateReferralCode(old(State()), userId, hex, now)
      ensures old(Valid()) ==> Valid()
    {
      var found := CodeByUser(State(), userId);
      if found.Failure? {
        return Failure(found.error);
      }
      if found.value.Some? {
        return Success(found.value.value);
      }
      var text := GeneratedCode(userId, hex);
      if exists c :: c in codes && c.code == text {
        return Failure(UniqueViolation("uq_referral_codes_code"));
      }
      var c := ReferralCode(|codes| + 1, userId, text, true, now);
      codes := codes + [c];
      r := Success(c);
    }

    /** `log_referral_event`. */
    method LogReferralEvent(codeId: nat, kind: ReferralEventType, userId: Option<nat>, bookingId: Option<nat>,
                            meta: Json, now: int)
      modifies this
      ensures State() == Store.LogReferralEvent(old(State()), codeId, kind, userId, bookingId, meta, now)
      ensures old(Valid()) ==> Valid()
    {
      referralEvents := referralEvents + [ReferralEvent(|referralEvents| + 1, codeId, userId, kind, bookingId, meta, now)];
    }

    /** `save_webhook_event`: the stored event. */
    method SaveWebhookEvent(provider: string, eventId: Json, eventType: string, hash: string, rawPayload: Json, now: int)
      returns (event: WebhookEvent)
      modifies this
      ensures (State(), event) == Store.SaveWebhookEvent(old(State()), provider, eventId, eventType, hash, rawPayload, now)
      ensures old(Valid()) ==> Valid()
    {
      event := WebhookEvent(|webhookEvents| + 1, provider, eventId, eventType, hash, now, None, rawPayload);
      webhookEvents := webhookEvents + [event];
    }

    /** `mark_webhook_processed`. */
    method MarkWebhookProcessed(eventId: int, now: int)
      modifies this
      ensures State() == Store.MarkWebhookProcessed(old(State()), eventId, now)
      ensures old(Valid()) ==> Valid()
    {
      webhookEvents := Store.MarkWebhookProcessed(State(), eventId, now).webhookEvents;
    }

    /** `create_payout_for_booking`: the new payout, or none when the booking already has one. */
    method CreatePayoutForBooking(code: ReferralCode, booking: Booking, s: Settings, now: int)
      returns (r: Result<Option<Payout>, DbError>)
      modifies this
      ensures (State(), r) == Referrals.CreatePayoutForBooking(old(State()), code, booking, s, now)
      ensures old(Valid()) ==> Valid() && r.Success?
    {
      var existing := PayoutByBooking(State(), booking.id);
      if existing.Failure? {
        return Failure(existing.error);
      }
      if existing.value.Some? {
        return Success(None);
      }
      var amount := 0;
      if s.refPayoutMode == "fixed" {
        amount := s.refPayoutFixed;
      } else if s.refPayoutMode == "percent" && booking.totalAmount.Some? && booking.totalAmount.value != 0 {
        amount := TruncDiv10000(booking.totalAmount.value * s.refPayoutPercentBasisPoints);
      }
      var p := Payout(|payouts| + 1, code.id, booking.id, amount, PayoutPending, now, now);
      payouts := payouts + [p];
      r := Success(Some(p));
    }
  }
}
