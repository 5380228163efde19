/**
 * Payouts to referrers (`app/services/referrals.py`): at most one payout
 * per booking, its amount fixed or a percentage of the booking total.
 */
module Referrals {
  import opened Wrappers
  import opened Config
  import opened Models
  import opened Store

  /**
   * `int(x / 10000)` on the exact quotient: truncation toward zero, unlike
   * Dafny's Euclidean division.
   */
  function TruncDiv10000(x: int): (q: int)
    ensures x >= 0 ==> q * 10000 <= x < q * 10000 + 10000
    ensures x < 0 ==> q * 10000 - 10000 < x <= q * 10000
  {
    if x >= 0 then x / 10000 else -((-x) / 10000)
  }

  /**
   * The amount of a new payout: the fixed sum in "fixed" mode; in "percent"
   * mode the given percentage of a non-zero total, truncated toward zero, and
   * 0 for an empty or zero total; 0 in any other mode. The percentage is in
   * hundredths of a percent.
   */
  function PayoutAmount(s: Settings, total: Option<int>): (amount: int)
    ensures s.refPayoutMode == "fixed" ==> amount == s.refPayoutFixed
    ensures s.refPayoutMode != "fixed" && s.refPayoutMode != "percent" ==> amount == 0
    ensures s.refPayoutMode == "percent" && (total.None? || total == Some(0)) ==> amount == 0
    ensures s.refPayoutMode == "percent" && total.Some? && total.value * s.refPayoutPercentBasisPoints >= 0 ==>
      amount * 10000 <= total.value * s.refPayoutPercentBasisPoints < (amount + 1) * 10000
    ensures s.refPayoutMode == "percent" && total.Some? && total.value * s.refPayoutPercentBasisPoints < 0 ==>
      (amount - 1) * 10000 < total.value * s.refPayoutPercentBasisPoints <= amount * 10000
  {
    if s.refPayoutMode == "fixed" then s.refPayoutFixed
    else if s.refPayoutMode == "percent" then
      if total.Some? && total.value != 0 then TruncDiv10000(total.value * s.refPayoutPercentBasisPoints) else 0
    else 0
  }

  /** With the defaults a payout is 500, whatever the booking total. */
  lemma DefaultPayoutIsFixed(adminTgIds: string, basePublicUrl: string, tgWebhookPath: string,
                             bookingBaseUrl: string, webhookSecret: string, total: Option<int>)
    ensures PayoutAmount(WithDefaults(adminTgIds, basePublicUrl, tgWebhookPath, bookingBaseUrl, webhookSecret), total) == 500
  {
  }

  /** Five percent of 5000 is 250; of 199 it is 9 (9.95 truncated); of -199 it is -9. */
  lemma PercentExamples(s: Settings)
    requires s.refPayoutMode == "percent" && s.refPayoutPercentBasisPoints == 500
    ensures PayoutAmount(s, Some(5000)) == 250
    ensures PayoutAmount(s, Some(199)) == 9
    ensures PayoutAmount(s, Some(-199)) == -9
  {
  }

  /** A percentage payout of a non-negative total never exceeds the total, for rates up to 100 percent. */
  lemma PercentWithinTotal(s: Settings, total: int)
    requires s.refPayoutMode == "percent" && 0 <= s.refPayoutPercentBasisPoints <= 10000 && total >= 0
    ensures 0 <= PayoutAmount(s, Some(total)) <= total
  {
    var bp := s.refPayoutPercentBasisPoints;
    MulBounds(total, bp);
  }

  lemma MulBounds(a: int, b: int)
    requires a >= 0 && 0 <= b <= 10000
    ensures 0 <= a * b <= a * 10000
  {
  }

  /**
   * `create_payout_for_booking`: nothing when the booking already has a
   * payout; otherwise a new pending payout for the code and the booking.
   */
  function CreatePayoutForBooking(db: Db, code: ReferralCode, booking: Booking, s: Settings, now: int): (r: (Db, Result<Option<Payout>, DbError>))
    ensures r.1.Success? && r.1.value.None? ==> r.0 == db && exists p :: p in db.payouts && p.bookingId == booking.id
    ensures r.1.Success? && r.1.value.Some? ==>
      && (forall p :: p in db.payouts ==> p.bookingId != booking.id)
      && r.1.value.value == Payout(|db.payouts| + 1, code.id, booking.id, PayoutAmount(s, booking.totalAmount), PayoutPending, now, now)
      && r.0 == db.(payouts := db.payouts + [r.1.value.value])
    ensures PayoutsValid(db.payouts) ==> r.1.Success? && PayoutsValid(r.0.payouts)
    ensures r.0 == db.(payouts := r.0.payouts)
  {
    match PayoutByBooking(db, booking.id)
    case Failure(e) => (db, Failure(e))
    case Success(Some(_)) => (db, Success(None))
    case Success(None) =>
      var (db', ins) := InsertPayout(db, code.id, booking.id, PayoutAmount(s, booking.totalAmount), now);
      match ins
      case Failure(e) => (db', Failure(e))
      case Success(p) => (db', Success(Some(p)))
  }

  /**
   * A second payout request for the same booking creates nothing, even for
   * another code: one booking, at most one payout.
   */
  lemma CreatePayoutIdempotent(db: Db, code: ReferralCode, code': ReferralCode, booking: Booking, s: Settings, now: int, now': int)
    requires PayoutsValid(db.payouts)
    ensures var (db1, r1) := CreatePayoutForBooking(db, code, booking, s, now);
      && r1.Success?
      && CreatePayoutForBooking(db1, code', booking, s, now') == (db1, Success(None))
      && |Filter(db1.payouts, (p: Payout) => p.bookingId == booking.id)| == 1
  {
    var (db1, r1) := CreatePayoutForBooking(db, code, booking, s, now);
    var p := (x: Payout) => x.bookingId == booking.id;
    FilterAtMostOne(db1.payouts, p);
    var rows := Filter(db1.payouts, p);
    if r1.value.Some? {
      assert r1.value.value in db1.payouts;
      assert r1.value.value in rows;
    } else {
      var q :| q in db.payouts && q.bookingId == booking.id;
      assert q in rows;
    }
  }
}
