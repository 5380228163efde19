/**
 * The tables of the application database: their enumerations, the record
 * shape of one row of each table, and the column defaults. The uniqueness
 * constraints are the invariant `Store.Db.Valid`.
 *
 * Timestamps are integers (seconds); ids are the autoincrement primary keys.
 */
module Models {
  import opened Wrappers
  import opened Documents

  // ---------------------------------------------------------------------
  // Enumerations
  // ---------------------------------------------------------------------

  datatype UserRole = Admin | Manager | Guest

  /** The states of a booking; the column stores the lower-case text. */
  datatype BookingStatus = Created | Confirmed | Paid | Canceled {
    function Text(): string {
      match this
      case Created => "created"
      case Confirmed => "confirmed"
      case Paid => "paid"
      case Canceled => "canceled"
    }
  }

  /** The booking status a stored text names, if any. */
  function BookingStatusOf(s: string): (r: Option<BookingStatus>)
    ensures r.Some? ==> r.value.Text() == s
    ensures r.None? ==> forall st: BookingStatus :: st.Text() != s
  {
    if s == "created" then Some(Created)
    else if s == "confirmed" then Some(Confirmed)
    else if s == "paid" then Some(Paid)
    else if s == "canceled" then Some(Canceled)
    else None
  }

  datatype PayoutStatus = PayoutPending | PayoutApproved | PayoutPaid {
    function Text(): string {
      match this
      case PayoutPending => "pending"
      case PayoutApproved => "approved"
      case PayoutPaid => "paid"
    }
  }

  datatype ReferralEventType = Start | Click | BookingCreated | BookingPaid {
    function Text(): string {
      match this
      case Start => "start"
      case Click => "click"
      case BookingCreated => "booking_created"
      case BookingPaid => "booking_paid"
    }
  }

  /** Each enumeration's texts are pairwise distinct, so a stored text names one member. */
  lemma EnumTextsDistinct()
    ensures forall a: BookingStatus, b: BookingStatus :: a.Text() == b.Text() ==> a == b
    ensures forall a: PayoutStatus, b: PayoutStatus :: a.Text() == b.Text() ==> a == b
    ensures forall a: ReferralEventType, b: ReferralEventType :: a.Text() == b.Text() ==> a == b
  {
  }

  // ---------------------------------------------------------------------
  // Rows
  // ---------------------------------------------------------------------

  datatype User = User(
    id: nat,
    telegramId: int,
    username: Option<string>,
    phone: Option<string>,
    role: UserRole,
    inviterUserId: Option<nat>,
    createdAt: int,
    updatedAt: int)

  datatype Apartment = Apartment(
    id: nat,
    title: string,
    district: Option<string>,
    guestsMax: int,
    bedsText: Option<string>,
    features: Option<seq<string>>,
    isActive: bool,
    sortOrder: int)

  /**
   * A booking. `status` holds the text the application writes into the
   * column (the webhook passes its normalized event type); `externalId`,
   * `checkIn`, `checkOut` and `currency` hold whatever value the payload
   * carried (the column types are not enforced, see README).
   */
  datatype Booking = Booking(
    id: nat,
    externalId: Json,
    status: string,
    apartmentId: Option<nat>,
    userId: Option<nat>,
    leadId: Option<nat>,
    checkIn: Json,
    checkOut: Json,
    totalAmount: Option<int>,
    currency: Json,
    sourceTag: Option<string>,
    rawPayload: Json,
    createdAt: int,
    updatedAt: int)

  /** The columns a caller may set when a booking is created. */
  datatype BookingFields = BookingFields(
    status: string,
    apartmentId: Option<nat>,
    userId: Option<nat>,
    leadId: Option<nat>,
    checkIn: Json,
    checkOut: Json,
    totalAmount: Option<int>,
    currency: Json,
    sourceTag: Option<string>,
    rawPayload: Json)

  /** The column defaults: status "created", currency "RUB", everything else empty. */
  function DefaultBookingFields(): (f: BookingFields)
    ensures BookingStatusOf(f.status) == Some(Created)
    ensures f.currency == JString("RUB")
    ensures f.apartmentId.None? && f.userId.None? && f.leadId.None? && f.totalAmount.None? && f.sourceTag.None?
  {
    BookingFields(Created.Text(), None, None, None, JNull, JNull, None, JString("RUB"), None, JNull)
  }

  /** The row `Booking(external_id=..., **fields)` inserts, with its new id. */
  function NewBooking(id: nat, externalId: Json, f: BookingFields, now: int): Booking {
    Booking(id, externalId, f.status, f.apartmentId, f.userId, f.leadId, f.checkIn, f.checkOut,
            f.totalAmount, f.currency, f.sourceTag, f.rawPayload, now, now)
  }

  /** A referral code: one per owner, active unless switched off. */
  datatype ReferralCode = ReferralCode(
    id: nat,
    userId: nat,
    code: string,
    isActive: bool,
    createdAt: int)

  datatype ReferralEvent = ReferralEvent(
    id: nat,
    referralCodeId: nat,
    userId: Option<nat>,
    kind: ReferralEventType,
    bookingId: Option<nat>,
    meta: Json,
    createdAt: int)

  datatype Payout = Payout(
    id: nat,
    referralCodeId: nat,
    bookingId: nat,
    amount: int,
    status: PayoutStatus,
    createdAt: int,
    updatedAt: int)

  /** A raw webhook call; `processedAt` stays empty until the event is stamped. */
  datatype WebhookEvent = WebhookEvent(
    id: nat,
    provider: string,
    eventId: Json,
    eventType: string,
    payloadHash: string,
    receivedAt: int,
    processedAt: Option<int>,
    rawPayload: Json)
}
