/**
 * Attribution of a booking to a referral code (`app/services/attribution.py`).
 *
 * Rule 1: a source tag holding "partner_" names the code after its last
 * "partner_"; an active code with exactly that text wins. Rule 2: otherwise
 * a guest phone that belongs to a registered user gives that user's code.
 * Rule 3: otherwise there is no code.
 *
 * The webhook passes the tag and the phone as they came in the payload, so
 * both are JSON values here; Python's `in` and `split` raise on values that
 * are not text, which is a `TypeFault`.
 */
module Attribution {
  import opened Wrappers
  import opened Documents
  import opened Text
  import opened Models
  import opened Store

  const PartnerMarker: string := "partner_"

  /** What stops attribution: a database error, or a Python operator applied to a value of the wrong type. */
  datatype Fault = DbFault(error: DbError) | TypeFault

  /**
   * `if source_tag and "partner_" in source_tag: code_str = source_tag.split("partner_")[-1]`:
   * the code text to look up, none when the rule does not apply, or the error
   * the test or the split raises for a tag that is not text.
   */
  function TagCode(sourceTag: Json): (r: Result<Option<string>, Fault>)
    ensures sourceTag.JString? ==> r.Success?
    ensures r.Success? && r.value.Some? ==>
      sourceTag.JString? && Contains(sourceTag.s, PartnerMarker) && r.value.value == LastPiece(sourceTag.s, PartnerMarker)
    ensures !Truthy(sourceTag) ==> r == Success(None)
  {
    if !Truthy(sourceTag) then Success(None)
    else match sourceTag
      case JString(s) =>
        if Contains(s, PartnerMarker) then Success(Some(LastPiece(s, PartnerMarker))) else Success(None)
      case JArray(items) =>
        // list membership compares items; a list that holds the marker has no `split`
        if JString(PartnerMarker) in items then Failure(TypeFault) else Success(None)
      case JObject(fields) =>
        // dictionary membership tests keys; a dictionary has no `split` either
        if PartnerMarker in fields then Failure(TypeFault) else Success(None)
      case _ =>
        // `in` on a number or a boolean raises TypeError
        Failure(TypeFault)
  }

  /** A tag "partner_<code>" names `<code>`, whenever the code does not itself contain the marker. */
  lemma PartnerTagNamesCode(code: string)
    requires !Contains(code, PartnerMarker)
    ensures TagCode(JString(PartnerMarker + code)) == Success(Some(code))
  {
    var s := PartnerMarker + code;
    assert OccursAt(s, PartnerMarker, 0) by { assert s[0..|PartnerMarker|] == PartnerMarker; }
    LastPieceAfterMarker(PartnerMarker, code);
  }

  /** The code found by a tag holds no "partner_" of its own. */
  lemma TagCodeHasNoMarker(sourceTag: Json)
    requires TagCode(sourceTag).Success? && TagCode(sourceTag).value.Some?
    ensures !Contains(TagCode(sourceTag).value.value, PartnerMarker)
  {
    LastPieceSpec(sourceTag.s, PartnerMarker);
  }

  /** `select(User).where(User.phone == phone)` with `scalar_one_or_none()`; phones are not unique. */
  function UserByPhone(db: Db, phone: string): (r: Result<Option<User>, DbError>)
    ensures r.Success? && r.value.Some? ==> r.value.value in db.users && r.value.value.phone == Some(phone)
    ensures r == Success(None) <==> forall u :: u in db.users ==> u.phone != Some(phone)
    ensures (forall i, j :: 0 <= i < j < |db.users| && db.users[i].phone == Some(phone) ==> db.users[j].phone != Some(phone))
      ==> r.Success?
  {
    var p := (u: User) => u.phone == Some(phone);
    var rows := Filter(db.users, p);
    assert rows != [] ==> rows[0] in rows;
    FilterAtMostOne(db.users, p);
    OneOrNone(rows)
  }

  /** `user.referral_code`: the code the user owns, if any. */
  function OwnedCode(db: Db, userId: nat): (r: Option<ReferralCode>)
    ensures r.Some? ==> r.value in db.codes && r.value.userId == userId
    ensures r.None? <==> forall c :: c in db.codes ==> c.userId != userId
    ensures CodesValid(db.codes) ==> forall c :: c in db.codes && c.userId == userId ==> r == Some(c)
  {
    var p := (c: ReferralCode) => c.userId == userId;
    var rows := Filter(db.codes, p);
    assert rows != [] ==> rows[0] in rows;
    FilterAtMostOne(db.codes, p);
    if rows == [] then None else Some(rows[0])
  }

  /**
   * Rule 2, `if phone:` then the code of the user with that phone, active or
   * not. A truthy phone that is not text cannot be bound as a parameter of
   * the text column `users.phone`, so the query raises.
   */
  function PhoneRule(db: Db, phone: Json): (r: Result<Option<ReferralCode>, Fault>)
    ensures r.Success? && r.value.Some? ==> (r.value.value in db.codes &&
      exists u :: u in db.users && phone.JString? && u.phone == Some(phone.s) && r.value.value.userId == u.id)
    ensures !Truthy(phone) ==> r == Success(None)
    ensures Truthy(phone) && !phone.JString? ==> r == Failure(TypeFault)
    ensures Truthy(phone) && phone.JString? && (forall u :: u in db.users ==> u.phone != Some(phone.s)) ==>
      r == Success(None)
  {
    if !Truthy(phone) then Success(None)
    else if !phone.JString? then Failure(TypeFault)
    else match UserByPhone(db, phone.s)
      case Failure(e) => Failure(DbFault(e))
      case Success(None) => Success(None)
      case Success(Some(u)) => Success(OwnedCode(db, u.id))
  }

  /** `attribute_booking`: rule 1, then rule 2, then no code. */
  function AttributeBooking(db: Db, sourceTag: Json, phone: Json): (r: Result<Option<ReferralCode>, Fault>)
    ensures r.Success? && r.value.Some? ==> r.value.value in db.codes
    ensures TagCode(sourceTag).Failure? ==> r == Failure(TypeFault)
    ensures (TagCode(sourceTag).Success? && TagCode(sourceTag).value.Some? &&
             GetReferralCode(db, TagCode(sourceTag).value.value).Success? &&
             GetReferralCode(db, TagCode(sourceTag).value.value).value.Some?) ==>
      r == Success(GetReferralCode(db, TagCode(sourceTag).value.value).value)
    ensures TagCode(sourceTag) == Success(None) ==> r == PhoneRule(db, phone)
    ensures (TagCode(sourceTag).Success? && TagCode(sourceTag).value.Some? &&
             GetReferralCode(db, TagCode(sourceTag).value.value) == Success(None)) ==>
      r == PhoneRule(db, phone)
  {
    var tag :- TagCode(sourceTag);
    if tag.None? then PhoneRule(db, phone)
    else match GetReferralCode(db, tag.value)
      case Failure(e) => Failure(DbFault(e))
      case Success(Some(c)) => Success(Some(c))
      case Success(None) => PhoneRule(db, phone)
  }

  /** What an attributed code is: an active code named by the tag, or the code of the user with that phone. */
  lemma AttributedCodeOrigin(db: Db, sourceTag: Json, phone: Json)
    requires AttributeBooking(db, sourceTag, phone).Success? && AttributeBooking(db, sourceTag, phone).value.Some?
    ensures var c := AttributeBooking(db, sourceTag, phone).value.value;
      || (sourceTag.JString? && Contains(sourceTag.s, PartnerMarker) &&
          c.isActive && c.code == LastPiece(sourceTag.s, PartnerMarker))
      || (phone.JString? && exists u :: u in db.users && u.phone == Some(phone.s) && c.userId == u.id)
  {
  }

  /** Rule 1 wins: an active code named by the tag is the answer, whatever the phone. */
  lemma TagRuleWins(db: Db, s: string, phone: Json, c: ReferralCode)
    requires CodesValid(db.codes) && Contains(s, PartnerMarker)
    requires c in db.codes && c.isActive && c.code == LastPiece(s, PartnerMarker)
    ensures AttributeBooking(db, JString(s), phone) == Success(Some(c))
  {
    var p := (x: ReferralCode) => x.code == c.code && x.isActive;
    FilterAtMostOne(db.codes, p);
    assert c in Filter(db.codes, p);
  }

  /** A tag that names no active code falls through to the phone rule. */
  lemma TagFallsThrough(db: Db, s: string, phone: Json)
    requires CodesValid(db.codes)
    requires forall c :: c in db.codes && c.isActive ==> !Contains(s, PartnerMarker) || c.code != LastPiece(s, PartnerMarker)
    ensures AttributeBooking(db, JString(s), phone) == PhoneRule(db, phone)
  {
  }

  /**
   * Rule 2: the one user with that phone brings the code they own. The
   * active flag is not looked at, so a switched-off code is returned too.
   */
  lemma PhoneRuleGivesOwnersCode(db: Db, phone: string, u: User, c: ReferralCode)
    requires phone != ""
    requires u in db.users && u.phone == Some(phone)
    requires forall v :: v in db.users && v.phone == Some(phone) ==> v == u
    requires UsersValid(db.users) && CodesValid(db.codes)
    requires c in db.codes && c.userId == u.id
    ensures PhoneRule(db, JString(phone)) == Success(Some(c))
  {
    forall i, j | 0 <= i < j < |db.users| && db.users[i].phone == Some(phone) ensures db.users[j].phone != Some(phone) {
      assert db.users[i] == u && db.users[j].id != u.id;
    }
  }

  /** Rule 2 finds nothing when the one user with that phone owns no code. */
  lemma PhoneOwnerWithoutCode(db: Db, phone: string, u: User)
    requires phone != ""
    requires u in db.users && u.phone == Some(phone)
    requires forall v :: v in db.users && v.phone == Some(phone) ==> v == u
    requires UsersValid(db.users)
    requires forall c :: c in db.codes ==> c.userId != u.id
    ensures PhoneRule(db, JString(phone)) == Success(None)
  {
    forall i, j | 0 <= i < j < |db.users| && db.users[i].phone == Some(phone) ensures db.users[j].phone != Some(phone) {
      assert db.users[i] == u && db.users[j].id != u.id;
    }
  }

  /**
   * Rule 2 through `attribute_booking`: when the tag names no active code,
   * the one user with that phone brings the code they own.
   */
  lemma PhoneAttribution(db: Db, sourceTag: Json, phone: string, u: User, c: ReferralCode)
    requires TagCode(sourceTag).Success?
    requires TagCode(sourceTag).value.Some? ==>
      forall x :: x in db.codes && x.isActive ==> x.code != TagCode(sourceTag).value.value
    requires phone != ""
    requires u in db.users && u.phone == Some(phone)
    requires forall v :: v in db.users && v.phone == Some(phone) ==> v == u
    requires UsersValid(db.users) && CodesValid(db.codes)
    requires c in db.codes && c.userId == u.id
    ensures AttributeBooking(db, sourceTag, JString(phone)) == Success(Some(c))
  {
    PhoneRuleGivesOwnersCode(db, phone, u, c);
  }

  /** Two users sharing a phone make rule 2 raise `MultipleResultsFound`. */
  lemma SharedPhoneIsAnError(db: Db, phone: string, i: int, j: int)
    requires phone != ""
    requires 0 <= i < j < |db.users| && db.users[i].phone == Some(phone) && db.users[j].phone == Some(phone)
    ensures PhoneRule(db, JString(phone)) == Failure(DbFault(MultipleResultsFound))
  {
    FilterKeepsTwo(db.users, (u: User) => u.phone == Some(phone), i, j);
  }

  /**
   * Rule 3: when the tag names no active code and the phone brings none
   * (it is falsy, no user has it, or its one user owns no code), the
   * booking is not attributed.
   */
  lemma NoRuleNoCode(db: Db, sourceTag: Json, phone: Json)
    requires TagCode(sourceTag).Success?
    requires TagCode(sourceTag).value.Some? ==>
      (CodesValid(db.codes) && forall c :: c in db.codes && c.isActive ==> c.code != TagCode(sourceTag).value.value)
    requires || !Truthy(phone)
             || (phone.JString? && forall u :: u in db.users ==> u.phone != Some(phone.s))
             || (phone.JString? && UsersValid(db.users) &&
                 exists u :: u in db.users && u.phone == Some(phone.s) &&
                   (forall v :: v in db.users && v.phone == Some(phone.s) ==> v == u) &&
                   forall c :: c in db.codes ==> c.userId != u.id)
    ensures AttributeBooking(db, sourceTag, phone) == Success(None)
  {
    if Truthy(phone) && phone.JString? && exists u :: u in db.users && u.phone == Some(phone.s) {
      var u :| u in db.users && u.phone == Some(phone.s) &&
        (forall v :: v in db.users && v.phone == Some(phone.s) ==> v == u) &&
        forall c :: c in db.codes ==> c.userId != u.id;
      PhoneOwnerWithoutCode(db, phone.s, u);
    }
  }

  /** The self-referral guard and the window query of `check_attribution_window`. */
  function WindowEvents(db: Db, codeId: int, userId: int, now: int, windowDays: int): seq<ReferralEvent> {
    Filter(db.referralEvents, (e: ReferralEvent) =>
      e.referralCodeId == codeId && StartInWindow(e, userId, WindowStart(now, windowDays)))
  }

  /**
   * `check_attribution_window`: false for a code owned by the user (when the
   * code exists), otherwise whether a start event of this user through this
   * code lies in the window; more than one such event raises.
   */
  function CheckAttributionWindow(db: Db, codeId: int, userId: int, now: int, windowDays: int): (r: Result<bool, DbError>)
    ensures CodeById(db, codeId).Some? && CodeById(db, codeId).value.userId == userId ==> r == Success(false)
    ensures r == Success(true) <==>
      && !(CodeById(db, codeId).Some? && CodeById(db, codeId).value.userId == userId)
      && |WindowEvents(db, codeId, userId, now, windowDays)| == 1
    ensures r.Failure? <==>
      && !(CodeById(db, codeId).Some? && CodeById(db, codeId).value.userId == userId)
      && |WindowEvents(db, codeId, userId, now, windowDays)| > 1
    ensures r == Success(false) <==>
      || (CodeById(db, codeId).Some? && CodeById(db, codeId).value.userId == userId)
      || |WindowEvents(db, codeId, userId, now, windowDays)| == 0
    ensures r.Failure? ==> r.error == MultipleResultsFound
  {
    var code := CodeById(db, codeId);
    if code.Some? && code.value.userId == userId then Success(false)
    else
      match OneOrNone(WindowEvents(db, codeId, userId, now, windowDays))
      case Failure(e) => Failure(e)
      case Success(None) => Success(false)
      case Success(Some(_)) => Success(true)
  }

  /** An event exactly at the start of the window still counts, and an event one second earlier does not. */
  lemma WindowBoundary(e: ReferralEvent, userId: int, now: int, windowDays: int)
    requires e.userId == Some(userId) && e.kind == Start
    ensures e.createdAt == now - windowDays * 86400 ==> StartInWindow(e, userId, WindowStart(now, windowDays))
    ensures e.createdAt == now - windowDays * 86400 - 1 ==> !StartInWindow(e, userId, WindowStart(now, windowDays))
  {
  }

  /** A single start event of the user through the code, inside the window, makes the check pass. */
  lemma OneStartInWindow(db: Db, codeId: int, userId: int, now: int, windowDays: int, k: int)
    requires 0 <= k < |db.referralEvents|
    requires forall i :: 0 <= i < |db.referralEvents| && i != k ==>
      db.referralEvents[i].referralCodeId != codeId || !StartInWindow(db.referralEvents[i], userId, WindowStart(now, windowDays))
    requires db.referralEvents[k].referralCodeId == codeId
    requires StartInWindow(db.referralEvents[k], userId, WindowStart(now, windowDays))
    requires forall c :: c in db.codes && c.id == codeId ==> c.userId != userId
    ensures CheckAttributionWindow(db, codeId, userId, now, windowDays) == Success(true)
  {
    var p := (e: ReferralEvent) => e.referralCodeId == codeId && StartInWindow(e, userId, WindowStart(now, windowDays));
    assert WindowEvents(db, codeId, userId, now, windowDays) == Filter(db.referralEvents, p);
    FilterAtMostOne(db.referralEvents, p);
    assert db.referralEvents[k] in Filter(db.referralEvents, p);
  }
}
