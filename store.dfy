/**
 * The application database and the query helpers of `app/db/crud.py`.
 *
 * A `Db` value is the content of the seven tables the webhook pipeline uses,
 * each a sequence of rows in insertion order. Every operation is first a
 * function from one `Db` to the next (the specification); the class
 * `Session` of module `Sessions` holds the tables as fields and changes
 * them in place with methods proved against those functions.
 *
 * Queries follow SQLAlchemy's `scalar_one_or_none()`: no row gives `None`,
 * one row gives that row, two or more raise `MultipleResultsFound`.
 * Inserts check the constraints the table declares (NOT NULL, UNIQUE) and
 * give the error the database would raise.
 */
module Store {
  import opened Wrappers
  import opened Documents
  import opened Text
  import opened Models

  /** The errors a query or an insert can raise; the web layer turns each into a server error. */
  datatype DbError =
    | MultipleResultsFound
    | NotNullViolation(column: string)
    | UniqueViolation(constraint: string)

  // ---------------------------------------------------------------------
  // Rows a query returns
  // ---------------------------------------------------------------------

  /** The rows satisfying `p`, in table order. */
  function Filter<T(!new)>(rows: seq<T>, p: T -> bool): (r: seq<T>)
    ensures |r| <= |rows|
    ensures forall x :: x in r <==> x in rows && p(x)
    decreases |rows|
  {
    if rows == [] then []
    else (if p(rows[0]) then [rows[0]] else []) + Filter(rows[1..], p)
  }

  /** A key that no two rows share is held by at most one row. */
  lemma {:induction false} FilterAtMostOne<T(!new)>(rows: seq<T>, p: T -> bool)
    ensures (forall i, j :: 0 <= i < j < |rows| && p(rows[i]) ==> !p(rows[j])) ==> |Filter(rows, p)| <= 1
    decreases |rows|
  {
    if rows != [] && forall i, j :: 0 <= i < j < |rows| && p(rows[i]) ==> !p(rows[j]) {
      var tail := rows[1..];
      assert forall i, j :: 0 <= i < j < |tail| && p(tail[i]) ==> !p(tail[j]) by {
        forall i, j | 0 <= i < j < |tail| && p(tail[i]) ensures !p(tail[j]) {
          assert tail[i] == rows[i + 1] && tail[j] == rows[j + 1];
        }
      }
      FilterAtMostOne(tail, p);
      if p(rows[0]) {
        forall x | x in tail ensures !p(x) {
          var j :| 0 <= j < |tail| && tail[j] == x;
          assert rows[j + 1] == x;
        }
        var rest := Filter(tail, p);
        assert forall x :: x !in rest;
        assert rest != [] ==> rest[0] in rest;
      }
    }
  }

  /** Two distinct indices whose rows satisfy `p` leave at least two rows in the filter. */
  lemma {:induction false} FilterKeepsTwo<T(!new)>(rows: seq<T>, p: T -> bool, i: int, j: int)
    requires 0 <= i < j < |rows| && p(rows[i]) && p(rows[j])
    ensures |Filter(rows, p)| >= 2
    decreases |rows|
  {
    var tail := rows[1..];
    if i == 0 {
      assert tail[j - 1] == rows[j];
      assert rows[j] in Filter(tail, p);
    } else {
      assert tail[i - 1] == rows[i] && tail[j - 1] == rows[j];
      FilterKeepsTwo(tail, p, i - 1, j - 1);
    }
  }

  /** `scalar_one_or_none()`: no row, exactly one row, or an error for more. */
  function OneOrNone<T>(rows: seq<T>): (r: Result<Option<T>, DbError>)
    ensures r == Success(None) <==> |rows| == 0
    ensures r.Success? && r.value.Some? <==> |rows| == 1
    ensures r.Success? && r.value.Some? ==> r.value.value in rows
    ensures r.Failure? <==> |rows| > 1
    ensures r.Failure? ==> r.error == MultipleResultsFound
  {
    if |rows| == 0 then Success(None)
    else if |rows| == 1 then Success(Some(rows[0]))
    else Failure(MultipleResultsFound)
  }

  // ---------------------------------------------------------------------
  // The tables and their constraints
  // ---------------------------------------------------------------------

  datatype Db = Db(
    users: seq<User>,
    apartments: seq<Apartment>,
    bookings: seq<Booking>,
    codes: seq<ReferralCode>,
    referralEvents: seq<ReferralEvent>,
    payouts: seq<Payout>,
    webhookEvents: seq<WebhookEvent>)

  function EmptyDb(): Db {
    Db([], [], [], [], [], [], [])
  }

  /** `users`: autoincrement ids, `telegram_id` UNIQUE. */
  predicate UsersValid(us: seq<User>) {
    && (forall i :: 0 <= i < |us| ==> us[i].id == i + 1)
    && (forall i, j :: 0 <= i < j < |us| ==> us[i].telegramId != us[j].telegramId)
  }

  predicate ApartmentsValid(aps: seq<Apartment>) {
    forall i :: 0 <= i < |aps| ==> aps[i].id == i + 1
  }

  /** `bookings`: autoincrement ids, `external_id` NOT NULL and UNIQUE, `currency` NOT NULL. */
  predicate BookingsValid(bs: seq<Booking>) {
    && (forall i :: 0 <= i < |bs| ==> bs[i].id == i + 1 && bs[i].externalId != JNull && bs[i].currency != JNull)
    && (forall i, j :: 0 <= i < j < |bs| ==> bs[i].externalId != bs[j].externalId)
  }

  /** `referral_codes`: autoincrement ids, `code` UNIQUE, `user_id` UNIQUE. */
  predicate CodesValid(cs: seq<ReferralCode>) {
    && (forall i :: 0 <= i < |cs| ==> cs[i].id == i + 1)
    && (forall i, j :: 0 <= i < j < |cs| ==> cs[i].code != cs[j].code && cs[i].userId != cs[j].userId)
  }

  predicate ReferralEventsValid(es: seq<ReferralEvent>) {
    forall i :: 0 <= i < |es| ==> es[i].id == i + 1
  }

  /** `payouts`: autoincrement ids, `booking_id` UNIQUE. */
  predicate PayoutsValid(ps: seq<Payout>) {
    && (forall i :: 0 <= i < |ps| ==> ps[i].id == i + 1)
    && (forall i, j :: 0 <= i < j < |ps| ==> ps[i].bookingId != ps[j].bookingId)
  }

  /** `webhook_events`: autoincrement ids only; the table has indexes but no unique constraint. */
  predicate WebhookEventsValid(ws: seq<WebhookEvent>) {
    forall i :: 0 <= i < |ws| ==> ws[i].id == i + 1
  }

  predicate Valid(db: Db) {
    && UsersValid(db.users)
    && ApartmentsValid(db.apartments)
    && BookingsValid(db.bookings)
    && CodesValid(db.codes)
    && ReferralEventsValid(db.referralEvents)
    && PayoutsValid(db.payouts)
    && WebhookEventsValid(db.webhookEvents)
  }

  lemma EmptyDbValid()
    ensures Valid(EmptyDb())
  {
  }

  // ---------------------------------------------------------------------
  // Users
  // ---------------------------------------------------------------------

  /** `select(User).where(User.telegram_id == telegram_id)` with `scalar_one_or_none()`. */
  function UserByTelegramId(db: Db, telegramId: int): (r: Result<Option<User>, DbError>)
    ensures UsersValid(db.users) ==> r.Success?
    ensures r.Success? && r.value.Some? ==> r.value.value in db.users && r.value.value.telegramId == telegramId
    ensures r == Success(None) <==> forall u :: u in db.users ==> u.telegramId != telegramId
  {
    var p := (u: User) => u.telegramId == telegramId;
    FilterAtMostOne(db.users, p);
    OneOrNone(Filter(db.users, p))
  }

  /** The insert `User(telegram_id=..., ...)` commits: the next id, or a UNIQUE violation. */
  function InsertUser(db: Db, telegramId: int, username: Option<string>, phone: Option<string>,
                      role: UserRole, inviterUserId: Option<nat>, now: int): (r: (Db, Result<User, DbError>))
    ensures r.1.Success? <==> forall u :: u in db.users ==> u.telegramId != telegramId
    ensures r.1.Failure? ==> r.0 == db && r.1.error == UniqueViolation("users.telegram_id")
    ensures r.1.Success? ==> r.0 == db.(users := db.users + [r.1.value]) && r.1.value.id == |db.users| + 1
    ensures r.1.Success? ==> r.1.value == User(|db.users| + 1, telegramId, username, phone, role, inviterUserId, now, now)
    ensures UsersValid(db.users) ==> UsersValid(r.0.users)
  {
    if exists u :: u in db.users && u.telegramId == telegramId then
      (db, Failure(UniqueViolation("users.telegram_id")))
    else
      var u := User(|db.users| + 1, telegramId, username, phone, role, inviterUserId, now, now);
      var db' := db.(users := db.users + [u]);
      assert forall i :: 0 <= i < |db.users| ==> db.users[i] in db.users;
      (db', Success(u))
  }

  /**
   * `get_or_create_user`: the user with that Telegram id, or a new one;
   * the role defaults to guest in the callers that do not give one.
   */
  function GetOrCreateUser(db: Db, telegramId: int, username: Option<string>, phone: Option<string>,
                           role: UserRole, inviterUserId: Option<nat>, now: int): (r: (Db, Result<User, DbError>))
    ensures UsersValid(db.users) ==> r.1.Success?
    ensures r.1.Success? ==> r.1.value.telegramId == telegramId && r.1.value in r.0.users
    ensures UserByTelegramId(db, telegramId).Success? && UserByTelegramId(db, telegramId).value.Some? ==>
      r == (db, Success(UserByTelegramId(db, telegramId).value.value))
    ensures UserByTelegramId(db, telegramId) == Success(None) ==>
      var u := User(|db.users| + 1, telegramId, username, phone, role, inviterUserId, now, now);
      r == (db.(users := db.users + [u]), Success(u))
    ensures r.1.Failure? ==> r.0 == db
  {
    match UserByTelegramId(db, telegramId)
    case Failure(e) => (db, Failure(e))
    case Success(None) => InsertUser(db, telegramId, username, phone, role, inviterUserId, now)
    case Success(Some(u)) => (db, Success(u))
  }

  /** An existing user is returned as stored: the other arguments are ignored and nothing is written. */
  lemma GetOrCreateUserExisting(db: Db, telegramId: int, username: Option<string>, phone: Option<string>,
                                role: UserRole, inviterUserId: Option<nat>, now: int, u: User)
    requires UsersValid(db.users) && u in db.users && u.telegramId == telegramId
    ensures GetOrCreateUser(db, telegramId, username, phone, role, inviterUserId, now) == (db, Success(u))
  {
    var p := (x: User) => x.telegramId == telegramId;
    FilterAtMostOne(db.users, p);
    assert u in Filter(db.users, p);
  }

  /** Creating a user keeps every table constraint, and a second call returns the same user without writing. */
  lemma GetOrCreateUserIdempotent(db: Db, telegramId: int, username: Option<string>, phone: Option<string>,
                                  role: UserRole, inviterUserId: Option<nat>, now: int, now': int)
    requires Valid(db)
    ensures var (db1, r1) := GetOrCreateUser(db, telegramId, username, phone, role, inviterUserId, now);
            Valid(db1) && r1.Success? &&
            GetOrCreateUser(db1, telegramId, username, phone, role, inviterUserId, now') == (db1, r1)
  {
    var (db1, r1) := GetOrCreateUser(db, telegramId, username, phone, role, inviterUserId, now);
    GetOrCreateUserExisting(db1, telegramId, username, phone, role, inviterUserId, now', r1.value);
  }

  // ---------------------------------------------------------------------
  // Apartments
  // ---------------------------------------------------------------------

  /** `order_by(Apartment.sort_order, Apartment.id)`: `a` may come before `b`. */
  predicate ListedBefore(a: Apartment, b: Apartment) {
    a.sortOrder < b.sortOrder || (a.sortOrder == b.sortOrder && a.id <= b.id)
  }

  predicate ListOrdered(s: seq<Apartment>) {
    forall i, j :: 0 <= i < j < |s| ==> ListedBefore(s[i], s[j])
  }

  /** The head of an ordered list comes before everything in it. */
  lemma HeadListedFirst(s: seq<Apartment>)
    requires ListOrdered(s) && s != []
    ensures forall x :: x in multiset(s) ==> ListedBefore(s[0], x)
  {
    forall x | x in multiset(s) ensures ListedBefore(s[0], x) {
      var j :| 0 <= j < |s| && s[j] == x;
      assert j == 0 || ListedBefore(s[0], s[j]);
    }
  }

  /** An element before everything in an ordered list heads an ordered list. */
  lemma ConsOrdered(h: Apartment, r: seq<Apartment>)
    requires ListOrdered(r)
    requires forall x :: x in multiset(r) ==> ListedBefore(h, x)
    ensures ListOrdered([h] + r)
  {
    var s := [h] + r;
    forall i, j | 0 <= i < j < |s| ensures ListedBefore(s[i], s[j]) {
      if i == 0 {
        assert s[j] == r[j - 1] && r[j - 1] in multiset(r);
      } else {
        assert s[i] == r[i - 1] && s[j] == r[j - 1];
      }
    }
  }

  /** Places `a` into an ordered list. */
  function InsertListed(a: Apartment, s: seq<Apartment>): (r: seq<Apartment>)
    requires ListOrdered(s)
    ensures ListOrdered(r)
    ensures multiset(r) == multiset(s) + multiset{a}
    decreases |s|
  {
    if s == [] then [a]
    else if ListedBefore(a, s[0]) then
      HeadListedFirst(s);
      assert forall x :: x in multiset(s) ==> ListedBefore(a, x);
      ConsOrdered(a, s);
      [a] + s
    else
      assert ListOrdered(s[1..]) by {
        forall i, j | 0 <= i < j < |s| - 1 ensures ListedBefore(s[1..][i], s[1..][j]) {
          assert s[1..][i] == s[i + 1] && s[1..][j] == s[j + 1];
        }
      }
      var rest := InsertListed(a, s[1..]);
      assert s == [s[0]] + s[1..];
      HeadListedFirst(s);
      assert forall x :: x in multiset(rest) ==> ListedBefore(s[0], x) by {
        forall x | x in multiset(rest) ensures ListedBefore(s[0], x) {
          if x != a {
            assert x in multiset(s);
          }
        }
      }
      ConsOrdered(s[0], rest);
      [s[0]] + rest
  }

  /** The rows in `order_by(sort_order, id)` order. */
  function OrderListed(s: seq<Apartment>): (r: seq<Apartment>)
    ensures ListOrdered(r)
    ensures multiset(r) == multiset(s)
    decreases |s|
  {
    if s == [] then []
    else
      assert s == [s[0]] + s[1..];
      InsertListed(s[0], OrderListed(s[1..]))
  }

  /** `list_apartments`: the active apartments (or all of them), ordered by sort order and then id. */
  function ListApartments(db: Db, activeOnly: bool): (r: seq<Apartment>)
    ensures ListOrdered(r)
    ensures multiset(r) == multiset(Filter(db.apartments, (a: Apartment) => !activeOnly || a.isActive))
    ensures forall a :: a in r <==> a in db.apartments && (!activeOnly || a.isActive)
  {
    var selected := Filter(db.apartments, (a: Apartment) => !activeOnly || a.isActive);
    var r := OrderListed(selected);
    SameElements(r, selected);
    r
  }

  lemma SameElements(a: seq<Apartment>, b: seq<Apartment>)
    requires multiset(a) == multiset(b)
    ensures forall x :: x in a <==> x in b
  {
    forall x ensures x in a <==> x in b {
      assert x in a <==> x in multiset(a);
      assert x in b <==> x in multiset(b);
    }
  }

  /** For the default `active_only=True`, an inactive apartment is never listed. */
  lemma InactiveNotListed(db: Db, a: Apartment)
    requires !a.isActive
    ensures a !in ListApartments(db, true)
  {
  }

  // ---------------------------------------------------------------------
  // Bookings
  // ---------------------------------------------------------------------

  /**
   * `select(Booking).where(Booking.external_id == external_id)` with
   * `scalar_one_or_none()`. Comparing with `None` is `IS NULL`, which the
   * NOT NULL column never satisfies.
   */
  function BookingByExternalId(db: Db, externalId: Json): (r: Result<Option<Booking>, DbError>)
    ensures BookingsValid(db.bookings) ==> r.Success?
    ensures r.Success? && r.value.Some? ==> r.value.value in db.bookings && r.value.value.externalId == externalId
    ensures r == Success(None) <==> forall b :: b in db.bookings ==> b.externalId != externalId
  {
    var p := (b: Booking) => b.externalId == externalId;
    FilterAtMostOne(db.bookings, p);
    OneOrNone(Filter(db.bookings, p))
  }

  /**
   * The insert `Booking(external_id=..., **fields)` commits: the next id, or
   * the NOT NULL violation for an empty external id or currency, or the
   * violation of `uq_bookings_external_id`.
   */
  function InsertBooking(db: Db, externalId: Json, f: BookingFields, now: int): (r: (Db, Result<Booking, DbError>))
    ensures r.1.Failure? ==> r.0 == db
    ensures r.1.Success? <==>
      externalId != JNull && f.currency != JNull && forall b :: b in db.bookings ==> b.externalId != externalId
    ensures externalId == JNull ==> r.1 == Failure(NotNullViolation("bookings.external_id"))
    ensures r.1.Success? ==> r.1.value == NewBooking(|db.bookings| + 1, externalId, f, now)
    ensures r.1.Success? ==> r.0 == db.(bookings := db.bookings + [r.1.value])
    ensures BookingsValid(db.bookings) ==> BookingsValid(r.0.bookings)
  {
    if externalId == JNull then (db, Failure(NotNullViolation("bookings.external_id")))
    else if f.currency == JNull then (db, Failure(NotNullViolation("bookings.currency")))
    else if exists b :: b in db.bookings && b.externalId == externalId then
      (db, Failure(UniqueViolation("uq_bookings_external_id")))
    else
      var b := NewBooking(|db.bookings| + 1, externalId, f, now);
      assert forall i :: 0 <= i < |db.bookings| ==> db.bookings[i] in db.bookings;
      (db.(bookings := db.bookings + [b]), Success(b))
  }

  /**
   * `get_or_create_booking`: the stored booking with that external id, as
   * stored, and `False`; otherwise the new booking and `True`.
   */
  function GetOrCreateBooking(db: Db, externalId: Json, f: BookingFields, now: int): (r: (Db, Result<(Booking, bool), DbError>))
    ensures r.1.Success? && !r.1.value.1 ==>
      r.0 == db && r.1.value.0 in db.bookings && r.1.value.0.externalId == externalId
    ensures r.1.Success? && r.1.value.1 ==>
      && (forall b :: b in db.bookings ==> b.externalId != externalId)
      && r.1.value.0 == NewBooking(|db.bookings| + 1, externalId, f, now)
      && r.0 == db.(bookings := db.bookings + [r.1.value.0])
    ensures r.1.Failure? ==> r.0 == db
    ensures BookingsValid(db.bookings) && externalId != JNull && f.currency != JNull ==> r.1.Success?
    ensures BookingsValid(db.bookings) ==> BookingsValid(r.0.bookings)
  {
    match BookingByExternalId(db, externalId)
    case Failure(e) => (db, Failure(e))
    case Success(Some(b)) => (db, Success((b, false)))
    case Success(None) =>
      var (db', ins) := InsertBooking(db, externalId, f, now);
      match ins
      case Failure(e) => (db', Failure(e))
      case Success(b) => (db', Success((b, true)))
  }

  /** A booking already stored under the external id is returned unchanged, whatever the new fields say. */
  lemma ExistingBookingUntouched(db: Db, externalId: Json, f: BookingFields, now: int, b: Booking)
    requires BookingsValid(db.bookings) && b in db.bookings && b.externalId == externalId
    ensures GetOrCreateBooking(db, externalId, f, now) == (db, Success((b, false)))
  {
    var p := (x: Booking) => x.externalId == externalId;
    FilterAtMostOne(db.bookings, p);
    assert b in Filter(db.bookings, p);
  }

  /** `get_or_create_booking` is idempotent: the second call finds the first call's booking and writes nothing. */
  lemma GetOrCreateBookingIdempotent(db: Db, externalId: Json, f: BookingFields, f': BookingFields, now: int, now': int)
    requires BookingsValid(db.bookings) && externalId != JNull && f.currency != JNull
    ensures var (db1, r1) := GetOrCreateBooking(db, externalId, f, now);
      r1.Success? && GetOrCreateBooking(db1, externalId, f', now') == (db1, Success((r1.value.0, false)))
  {
    var (db1, r1) := GetOrCreateBooking(db, externalId, f, now);
    if r1.value.1 {
      assert r1.value.0 in db1.bookings;
    }
    ExistingBookingUntouched(db1, externalId, f', now', r1.value.0);
  }

  /** `update_booking_status`: every booking with that id gets the status and the update time. */
  function UpdateBookingStatus(db: Db, bookingId: int, status: string, now: int): (r: Db)
    ensures r == db.(bookings := r.bookings)
    ensures |r.bookings| == |db.bookings|
    ensures forall i :: 0 <= i < |db.bookings| && db.bookings[i].id != bookingId ==> r.bookings[i] == db.bookings[i]
    ensures forall i :: 0 <= i < |db.bookings| && db.bookings[i].id == bookingId ==>
      r.bookings[i] == db.bookings[i].(status := status, updatedAt := now)
    ensures BookingsValid(db.bookings) ==> BookingsValid(r.bookings)
  {
    var bs := db.bookings;
    db.(bookings := seq(|bs|, i requires 0 <= i < |bs| =>
      if bs[i].id == bookingId then bs[i].(status := status, updatedAt := now) else bs[i]))
  }

  // ---------------------------------------------------------------------
  // Referral codes and their events
  // ---------------------------------------------------------------------

  /** `get_referral_code`: the active code with exactly that text. */
  function GetReferralCode(db: Db, code: string): (r: Result<Option<ReferralCode>, DbError>)
    ensures CodesValid(db.codes) ==> r.Success?
    ensures r.Success? && r.value.Some? ==>
      r.value.value in db.codes && r.value.value.code == code && r.value.value.isActive
    ensures r == Success(None) <==> forall c :: c in db.codes ==> c.code != code || !c.isActive
  {
    var p := (c: ReferralCode) => c.code == code && c.isActive;
    FilterAtMostOne(db.codes, p);
    OneOrNone(Filter(db.codes, p))
  }

  /** `select(ReferralCode).where(ReferralCode.user_id == user_id)` with `scalar_one_or_none()`. */
  function CodeByUser(db: Db, userId: int): (r: Result<Option<ReferralCode>, DbError>)
    ensures CodesValid(db.codes) ==> r.Success?
    ensures r.Success? && r.value.Some? ==> r.value.value in db.codes && r.value.value.userId == userId
    ensures r == Success(None) <==> forall c :: c in db.codes ==> c.userId != userId
  {
    var p := (c: ReferralCode) => c.userId == userId;
    FilterAtMostOne(db.codes, p);
    OneOrNone(Filter(db.codes, p))
  }

  /** `session.get(ReferralCode, id)`: the code with that primary key, if any. */
  function CodeById(db: Db, id: int): (r: Option<ReferralCode>)
    ensures r.Some? ==> r.value in db.codes && r.value.id == id
    ensures r.None? <==> forall c :: c in db.codes ==> c.id != id
    ensures CodesValid(db.codes) && 1 <= id <= |db.codes| ==> r == Some(db.codes[id - 1])
  {
    var rows := Filter(db.codes, (c: ReferralCode) => c.id == id);
    if CodesValid(db.codes) && 1 <= id <= |db.codes| then
      assert db.codes[id - 1] in rows;
      FilterAtMostOne(db.codes, (c: ReferralCode) => c.id == id);
      Some(rows[0])
    else if rows == [] then None
    else Some(rows[0])
  }

  /** `secrets.token_hex(4)`: eight lower-case hexadecimal digits. */
  predicate TokenHex(h: string) {
    |h| == 8 && forall i :: 0 <= i < |h| ==> IsLowerHex(h[i])
  }

  /** The code `f"ref_{user_id}_{secrets.token_hex(4)}"` with the random part given. */
  function GeneratedCode(userId: nat, hex: string): string {
    "ref_" + NatToString(userId) + "_" + hex
  }

  /** A generated code names its owner and its random part: no two owners are given the same code. */
  lemma GeneratedCodeInjective(a: nat, ha: string, b: nat, hb: string)
    requires GeneratedCode(a, ha) == GeneratedCode(b, hb)
    ensures a == b && ha == hb
  {
    var sa, sb := NatToString(a), NatToString(b);
    var ga, gb := GeneratedCode(a, ha), GeneratedCode(b, hb);
    assert forall k :: 0 <= k < |sa| ==> ga[4 + k] == sa[k];
    assert forall k :: 0 <= k < |sb| ==> gb[4 + k] == sb[k];
    assert ga[4 + |sa|] == '_' && gb[4 + |sb|] == '_';
    assert |sa| == |sb|;
    assert sa == ga[4..4 + |sa|] == gb[4..4 + |sb|] == sb;
    NatToStringInjective(a, b);
    assert ha == ga[5 + |sa|..] == gb[5 + |sb|..] == hb;
  }

  /** The insert `ReferralCode(user_id=..., code=...)`: active, with the next id, unless a UNIQUE constraint objects. */
  function InsertCode(db: Db, userId: nat, code: string, now: int): (r: (Db, Result<ReferralCode, DbError>))
    ensures r.1.Failure? ==> r.0 == db
    ensures r.1.Success? <==> forall c :: c in db.codes ==> c.code != code && c.userId != userId
    ensures r.1.Success? ==> r.1.value == ReferralCode(|db.codes| + 1, userId, code, true, now)
    ensures r.1.Success? ==> r.0 == db.(codes := db.codes + [r.1.value])
    ensures CodesValid(db.codes) ==> CodesValid(r.0.codes)
  {
    if exists c :: c in db.codes && c.code == code then (db, Failure(UniqueViolation("uq_referral_codes_code")))
    else if exists c :: c in db.codes && c.userId == userId then (db, Failure(UniqueViolation("referral_codes.user_id")))
    else
      var c := ReferralCode(|db.codes| + 1, userId, code, true, now);
      assert forall i :: 0 <= i < |db.codes| ==> db.codes[i] in db.codes;
      (db.(codes := db.codes + [c]), Success(c))
  }

  /**
   * `get_or_create_referral_code`: the user's code, active or not, or a new
   * active code `ref_<user id>_<hex>`; the insert fails only when another
   * row already holds that exact text.
   */
  function GetOrCreateReferralCode(db: Db, userId: nat, hex: string, now: int): (r: (Db, Result<ReferralCode, DbError>))
    requires TokenHex(hex)
    ensures r.1.Success? ==> r.1.value.userId == userId && r.1.value in r.0.codes
    ensures r.1.Failure? ==> r.0 == db
    ensures CodesValid(db.codes) ==> CodesValid(r.0.codes)
    ensures CodesValid(db.codes) && r.1.Failure? ==>
      r.1 == Failure(UniqueViolation("uq_referral_codes_code")) &&
      exists c :: c in db.codes && c.code == GeneratedCode(userId, hex)
    ensures CodeByUser(db, userId).Success? && CodeByUser(db, userId).value.Some? ==>
      r == (db, Success(CodeByUser(db, userId).value.value))
    ensures CodeByUser(db, userId) == Success(None) && r.1.Success? ==>
      && r.1.value == ReferralCode(|db.codes| + 1, userId, GeneratedCode(userId, hex), true, now)
      && r.0 == db.(codes := db.codes + [r.1.value])
  {
    match CodeByUser(db, userId)
    case Failure(e) => (db, Failure(e))
    case Success(Some(c)) => (db, Success(c))
    case Success(None) =>
      var (db', r') := InsertCode(db, userId, GeneratedCode(userId, hex), now);
      if r'.Failure? && CodesValid(db.codes) then
        assert exists c :: c in db.codes && c.code == GeneratedCode(userId, hex);
        (db', r')
      else (db', r')
  }

  /** The code was generated for its owner: `ref_<owner id>_` followed by eight hexadecimal digits. */
  predicate GeneratedFor(c: ReferralCode) {
    |c.code| >= 8 && TokenHex(c.code[|c.code| - 8..]) && c.code == GeneratedCode(c.userId, c.code[|c.code| - 8..])
  }

  /** Every stored code was generated for its owner, as `get_or_create_referral_code` makes them. */
  predicate AllGenerated(db: Db) {
    forall c :: c in db.codes ==> GeneratedFor(c)
  }

  /** When every code was generated for its owner, creating a user's code cannot collide: it always succeeds. */
  lemma GeneratedCodesNeverCollide(db: Db, userId: nat, hex: string, now: int)
    requires CodesValid(db.codes) && AllGenerated(db) && TokenHex(hex)
    ensures var (db', r) := GetOrCreateReferralCode(db, userId, hex, now);
      r.Success? && AllGenerated(db')
  {
    var (db', r) := GetOrCreateReferralCode(db, userId, hex, now);
    if r.Failure? {
      var c :| c in db.codes && c.code == GeneratedCode(userId, hex);
      assert GeneratedFor(c);
      GeneratedCodeInjective(userId, hex, c.userId, c.code[|c.code| - 8..]);
      assert false;
    }
    forall c | c in db'.codes ensures GeneratedFor(c) {
      if c !in db.codes {
        assert c.code == GeneratedCode(c.userId, hex);
        assert c.code[|c.code| - 8..] == hex;
      }
    }
  }

  /** The user's stored code is returned as it is, active or not, and nothing is written. */
  lemma StoredCodeReturned(db: Db, userId: nat, hex: string, now: int, c: ReferralCode)
    requires CodesValid(db.codes) && TokenHex(hex) && c in db.codes && c.userId == userId
    ensures GetOrCreateReferralCode(db, userId, hex, now) == (db, Success(c))
  {
    var p := (x: ReferralCode) => x.userId == userId;
    FilterAtMostOne(db.codes, p);
    assert c in Filter(db.codes, p);
  }

  /** `log_referral_event`: one more event row with the next id. */
  function LogReferralEvent(db: Db, codeId: nat, kind: ReferralEventType, userId: Option<nat>,
                            bookingId: Option<nat>, meta: Json, now: int): (r: Db)
    ensures r == db.(referralEvents := r.referralEvents)
    ensures |r.referralEvents| == |db.referralEvents| + 1 && r.referralEvents[..|db.referralEvents|] == db.referralEvents
    ensures r.referralEvents[|db.referralEvents|] ==
      ReferralEvent(|db.referralEvents| + 1, codeId, userId, kind, bookingId, meta, now)
    ensures ReferralEventsValid(db.referralEvents) ==> ReferralEventsValid(r.referralEvents)
  {
    var e := ReferralEvent(|db.referralEvents| + 1, codeId, userId, kind, bookingId, meta, now);
    db.(referralEvents := db.referralEvents + [e])
  }

  /** The start of the attribution window: `utcnow() - timedelta(days=...)`, in seconds. */
  function WindowStart(now: int, windowDays: int): int {
    now - windowDays * 86400
  }

  /** A start event of that user recorded inside the window. */
  predicate StartInWindow(e: ReferralEvent, userId: int, windowStart: int) {
    e.userId == Some(userId) && e.kind == Start && e.createdAt >= windowStart
  }

  /**
   * The rows of `get_attributed_referral_code`'s query: codes and events are
   * joined on the code id, and one code row comes back for every matching
   * start event.
   */
  function AttributedRows(codes: seq<ReferralCode>, events: seq<ReferralEvent>, userId: int, windowStart: int): (r: seq<ReferralCode>)
    ensures forall c :: c in r <==> (c in codes &&
      exists e :: e in events && StartInWindow(e, userId, windowStart) && e.referralCodeId == c.id)
    decreases |events|
  {
    if events == [] then []
    else
      var e := events[0];
      var here := if StartInWindow(e, userId, windowStart) then Filter(codes, (c: ReferralCode) => c.id == e.referralCodeId) else [];
      var rest := AttributedRows(codes, events[1..], userId, windowStart);
      assert forall x :: x in events <==> x == e || x in events[1..];
      here + rest
  }

  /** `get_attributed_referral_code`: the code whose start event brought this user in inside the window. */
  function GetAttributedReferralCode(db: Db, userId: int, now: int, windowDays: int): (r: Result<Option<ReferralCode>, DbError>)
    ensures r.Success? && r.value.Some? ==> (r.value.value in db.codes &&
      exists e :: e in db.referralEvents && StartInWindow(e, userId, WindowStart(now, windowDays)) &&
        e.referralCodeId == r.value.value.id)
    ensures r == Success(None) <==> forall e, c :: (e in db.referralEvents && c in db.codes &&
      StartInWindow(e, userId, WindowStart(now, windowDays))) ==> e.referralCodeId != c.id
    ensures var rows := AttributedRows(db.codes, db.referralEvents, userId, WindowStart(now, windowDays));
      && (|rows| == 1 ==> r == Success(Some(rows[0])))
      && (r.Failure? <==> |rows| > 1)
      && (r.Failure? ==> r.error == MultipleResultsFound)
  {
    var rows := AttributedRows(db.codes, db.referralEvents, userId, WindowStart(now, windowDays));
    assert rows != [] ==> rows[0] in rows;
    OneOrNone(rows)
  }

  /**
   * The query does not remove duplicates: a user with two start events in
   * the window, each naming an existing code (even the same one), gets
   * `MultipleResultsFound`.
   */
  lemma {:induction false} TwoStartsAreAnError(db: Db, userId: int, now: int, windowDays: int, i: int, j: int)
    requires 0 <= i < j < |db.referralEvents|
    requires StartInWindow(db.referralEvents[i], userId, WindowStart(now, windowDays))
    requires StartInWindow(db.referralEvents[j], userId, WindowStart(now, windowDays))
    requires CodeById(db, db.referralEvents[i].referralCodeId).Some?
    requires CodeById(db, db.referralEvents[j].referralCodeId).Some?
    ensures GetAttributedReferralCode(db, userId, now, windowDays) == Failure(MultipleResultsFound)
  {
    AttributedRowsCount(db.codes, db.referralEvents, userId, WindowStart(now, windowDays), i, j);
  }

  lemma {:induction false} AttributedRowsCount(codes: seq<ReferralCode>, events: seq<ReferralEvent>, userId: int, windowStart: int, i: int, j: int)
    requires 0 <= i < j < |events|
    requires StartInWindow(events[i], userId, windowStart) && StartInWindow(events[j], userId, windowStart)
    requires exists c :: c in codes && c.id == events[i].referralCodeId
    requires exists c :: c in codes && c.id == events[j].referralCodeId
    ensures |AttributedRows(codes, events, userId, windowStart)| >= 2
    decreases |events|
  {
    var e := events[0];
    var rest := AttributedRows(codes, events[1..], userId, windowStart);
    var here := if StartInWindow(e, userId, windowStart) then Filter(codes, (c: ReferralCode) => c.id == e.referralCodeId) else [];
    assert AttributedRows(codes, events, userId, windowStart) == here + rest;
    if i == 0 {
      var c :| c in codes && c.id == e.referralCodeId;
      assert c in here;
      var c' :| c' in codes && c'.id == events[j].referralCodeId;
      assert events[1..][j - 1] == events[j];
      assert events[j] in events[1..];
      assert c' in rest;
      assert |here| >= 1 && |rest| >= 1;
    } else {
      assert events[1..][i - 1] == events[i] && events[1..][j - 1] == events[j];
      AttributedRowsCount(codes, events[1..], userId, windowStart, i - 1, j - 1);
    }
  }

  // ---------------------------------------------------------------------
  // Webhook events
  // ---------------------------------------------------------------------

  /** `get_webhook_event_by_hash`: the stored event of that provider with that payload hash. */
  function EventByHash(db: Db, provider: string, hash: string): (r: Result<Option<WebhookEvent>, DbError>)
    ensures r.Success? && r.value.Some? ==>
      r.value.value in db.webhookEvents && r.value.value.provider == provider && r.value.value.payloadHash == hash
    ensures r == Success(None) <==> forall w :: w in db.webhookEvents ==> w.provider != provider || w.payloadHash != hash
    ensures r.Failure? <==> |Filter(db.webhookEvents, (w: WebhookEvent) => w.provider == provider && w.payloadHash == hash)| > 1
  {
    var rows := Filter(db.webhookEvents, (w: WebhookEvent) => w.provider == provider && w.payloadHash == hash);
    assert rows != [] ==> rows[0] in rows;
    OneOrNone(rows)
  }

  /** The duplicate-detection key of each stored event: its provider and its payload hash. */
  function EventKeys(ws: seq<WebhookEvent>): (k: seq<(string, string)>)
    ensures |k| == |ws|
    ensures forall i :: 0 <= i < |ws| ==> k[i] == (ws[i].provider, ws[i].payloadHash)
  {
    seq(|ws|, i requires 0 <= i < |ws| => (ws[i].provider, ws[i].payloadHash))
  }

  /** At most one stored event per provider and hash: the property the webhook keeps, as the table itself does not. */
  predicate HashesDistinct(ws: seq<WebhookEvent>) {
    var k := EventKeys(ws);
    forall i, j :: 0 <= i < j < |k| ==> k[i] != k[j]
  }

  /** Where hashes are distinct, the duplicate check never raises. */
  lemma EventByHashSucceeds(db: Db, provider: string, hash: string)
    requires HashesDistinct(db.webhookEvents)
    ensures EventByHash(db, provider, hash).Success?
    ensures EventByHash(db, provider, hash).value.Some? <==> (provider, hash) in EventKeys(db.webhookEvents)
  {
    var ws := db.webhookEvents;
    var k := EventKeys(ws);
    var p := (w: WebhookEvent) => w.provider == provider && w.payloadHash == hash;
    forall i, j | 0 <= i < j < |ws| && p(ws[i]) ensures !p(ws[j]) {
      assert k[i] != k[j];
    }
    FilterAtMostOne(ws, p);
    if (provider, hash) in k {
      var i :| 0 <= i < |k| && k[i] == (provider, hash);
      assert ws[i] in ws && p(ws[i]);
    }
    if EventByHash(db, provider, hash).value.Some? {
      var w := EventByHash(db, provider, hash).value.value;
      var i :| 0 <= i < |ws| && ws[i] == w;
      assert k[i] == (provider, hash);
    }
  }

  /** `save_webhook_event`: the raw call is stored with its receipt time and no processing time. */
  function SaveWebhookEvent(db: Db, provider: string, eventId: Json, eventType: string, hash: string,
                            rawPayload: Json, now: int): (r: (Db, WebhookEvent))
    ensures r.1 == WebhookEvent(|db.webhookEvents| + 1, provider, eventId, eventType, hash, now, None, rawPayload)
    ensures r.0 == db.(webhookEvents := db.webhookEvents + [r.1])
    ensures EventKeys(r.0.webhookEvents) == EventKeys(db.webhookEvents) + [(provider, hash)]
    ensures WebhookEventsValid(db.webhookEvents) ==> WebhookEventsValid(r.0.webhookEvents)
    ensures HashesDistinct(db.webhookEvents) && (provider, hash) !in EventKeys(db.webhookEvents) ==>
      HashesDistinct(r.0.webhookEvents)
  {
    var w := WebhookEvent(|db.webhookEvents| + 1, provider, eventId, eventType, hash, now, None, rawPayload);
    (db.(webhookEvents := db.webhookEvents + [w]), w)
  }

  /** `mark_webhook_processed`: the event with that id gets its processing time; nothing else changes. */
  function MarkWebhookProcessed(db: Db, eventId: int, now: int): (r: Db)
    ensures r == db.(webhookEvents := r.webhookEvents)
    ensures |r.webhookEvents| == |db.webhookEvents|
    ensures forall i :: 0 <= i < |db.webhookEvents| ==>
      r.webhookEvents[i] == if db.webhookEvents[i].id == eventId then db.webhookEvents[i].(processedAt := Some(now)) else db.webhookEvents[i]
    ensures WebhookEventsValid(db.webhookEvents) ==> WebhookEventsValid(r.webhookEvents)
    ensures EventKeys(r.webhookEvents) == EventKeys(db.webhookEvents)
  {
    var ws := db.webhookEvents;
    db.(webhookEvents := seq(|ws|, i requires 0 <= i < |ws| =>
      if ws[i].id == eventId then ws[i].(processedAt := Some(now)) else ws[i]))
  }

  /** `select(Payout).where(Payout.booking_id == booking.id)` with `scalar_one_or_none()`. */
  function PayoutByBooking(db: Db, bookingId: int): (r: Result<Option<Payout>, DbError>)
    ensures PayoutsValid(db.payouts) ==> r.Success?
    ensures r.Success? && r.value.Some? ==> r.value.value in db.payouts && r.value.value.bookingId == bookingId
    ensures r == Success(None) <==> forall p :: p in db.payouts ==> p.bookingId != bookingId
  {
    var p := (x: Payout) => x.bookingId == bookingId;
    FilterAtMostOne(db.payouts, p);
    OneOrNone(Filter(db.payouts, p))
  }

  /** The insert `Payout(..., status=PENDING)`: the next id, unless `uq_payouts_booking_id` objects. */
  function InsertPayout(db: Db, codeId: nat, bookingId: nat, amount: int, now: int): (r: (Db, Result<Payout, DbError>))
    ensures r.1.Failure? ==> r.0 == db && r.1 == Failure(UniqueViolation("uq_payouts_booking_id"))
    ensures r.1.Success? <==> forall p :: p in db.payouts ==> p.bookingId != bookingId
    ensures r.1.Success? ==> r.1.value == Payout(|db.payouts| + 1, codeId, bookingId, amount, PayoutPending, now, now)
    ensures r.1.Success? ==> r.0 == db.(payouts := db.payouts + [r.1.value])
    ensures PayoutsValid(db.payouts) ==> PayoutsValid(r.0.payouts)
  {
    if exists p :: p in db.payouts && p.bookingId == bookingId then
      (db, Failure(UniqueViolation("uq_payouts_booking_id")))
    else
      var p := Payout(|db.payouts| + 1, codeId, bookingId, amount, PayoutPending, now, now);
      assert forall i :: 0 <= i < |db.payouts| ==> db.payouts[i] in db.payouts;
      (db.(payouts := db.payouts + [p]), Success(p))
  }
}
