/**
 * The webhook normaliser: a static table per booking provider names, for
 * every canonical field, the dotted path of that field in the provider's
 * payload; `Parse` walks those paths and builds the canonical record.
 */
module WebhookParser {
  import opened Wrappers
  import opened Text
  import opened Documents

  /** The field paths and status translation of one provider (`WebhookConfig.mappings[provider]`). */
  datatype ProviderMapping = ProviderMapping(
    eventId: string,
    eventType: string,
    apartmentId: string,
    checkIn: string,
    checkOut: string,
    totalAmount: string,
    currency: string,
    phone: string,
    email: string,
    statusValues: map<string, string>)

  const HomeReserve: ProviderMapping := ProviderMapping(
    "booking_id", "status", "apartment_id", "check_in_date", "check_out_date", "price",
    "currency", "guest_phone", "guest_email",
    map["confirmed" := "confirmed", "paid" := "paid", "cancelled" := "canceled"])

  const BookingCom: ProviderMapping := ProviderMapping(
    "reservation_id", "event_type", "property_id", "arrival_date", "departure_date", "total_price",
    "currency_code", "guest_phone", "guest_email",
    map["RESERVATION_ACCEPTED" := "confirmed", "RESERVATION_CONFIRMED" := "confirmed",
        "RESERVATION_CANCELLED" := "canceled", "PAYMENT_RECEIVED" := "paid"])

  /** `WebhookConfig.get_mapping`: the provider's table, or nothing (the empty dictionary) for any other provider. */
  function GetMapping(provider: string): (m: Option<ProviderMapping>)
    ensures m.Some? <==> provider == "homereserve" || provider == "booking_com"
    ensures provider == "homereserve" ==> m == Some(HomeReserve)
    ensures provider == "booking_com" ==> m == Some(BookingCom)
  {
    if provider == "homereserve" then Some(HomeReserve)
    else if provider == "booking_com" then Some(BookingCom)
    else None
  }

  // ---------------------------------------------------------------------
  // Path lookup
  // ---------------------------------------------------------------------

  /**
   * Following `keys` from `value`: `None` as soon as a value that is not an
   * object must be entered, otherwise the value reached (a missing key
   * reaches `JNull`, as `dict.get` does).
   */
  function Walk(value: Json, keys: seq<string>): Option<Json>
    decreases |keys|
  {
    if keys == [] then Some(value)
    else if value.JObject? then Walk(Get(value.fields, keys[0]), keys[1..])
    else None
  }

  /** Walking `a + b` is walking `a`, then `b` from where `a` ended. */
  lemma {:induction false} WalkAppend(value: Json, a: seq<string>, b: seq<string>)
    ensures Walk(value, a + b) == if Walk(value, a).Some? then Walk(Walk(value, a).value, b) else None
    decreases |a|
  {
    if a != [] {
      assert (a + b)[0] == a[0];
      assert (a + b)[1..] == a[1..] + b;
      if value.JObject? {
        WalkAppend(Get(value.fields, a[0]), a[1..], b);
      }
    } else {
      assert a + b == b;
    }
  }

  /**
   * The independent reading of a path: every prefix of `keys` leads through
   * objects, and each key of the path is present in the object it is looked up in.
   */
  predicate PathPresent(value: Json, keys: seq<string>)
    decreases |keys|
  {
    keys == [] || (value.JObject? && keys[0] in value.fields && PathPresent(value.fields[keys[0]], keys[1..]))
  }

  /** A path whose keys are all present leads to the stored value; a missing key leads to nothing or to `JNull`. */
  lemma {:induction false} WalkPresent(value: Json, keys: seq<string>)
    ensures PathPresent(value, keys) ==> Walk(value, keys).Some?
    ensures !PathPresent(value, keys) ==> Walk(value, keys) in {None, Some(JNull)}
    decreases |keys|
  {
    if keys != [] && value.JObject? {
      WalkPresent(Get(value.fields, keys[0]), keys[1..]);
      if keys[0] !in value.fields {
        assert Get(value.fields, keys[0]) == JNull;
        if keys[1..] != [] {
          assert Walk(JNull, keys[1..]) == None;
        }
      }
    }
  }

  /**
   * `_get_value(key, default)`: no key or an empty key gives the default;
   * otherwise the value at the dotted path, and the default when the walk
   * meets a non-object or ends on `None`.
   */
  function Resolve(payload: Json, key: Option<string>, default: Json): Json {
    if key.None? || key.value == "" then default
    else
      match Walk(payload, Split(key.value, '.'))
      case None => default
      case Some(JNull) => default
      case Some(v) => v
  }

  /** `_get_value`, as the loop the source runs over the split key. */
  method GetValue(payload: Json, key: Option<string>, default: Json) returns (v: Json)
    ensures v == Resolve(payload, key, default)
  {
    if key.None? || key.value == "" {
      return default;
    }
    var keys := Split(key.value, '.');
    var value := payload;
    var i := 0;
    while i < |keys|
      invariant 0 <= i <= |keys|
      invariant Walk(value, keys[i..]) == Walk(payload, keys)
    {
      if value.JObject? {
        assert keys[i..][1..] == keys[i + 1..];
        value := Get(value.fields, keys[i]);
      } else {
        return default;
      }
      i := i + 1;
    }
    assert keys[i..] == [];
    v := if value != JNull then value else default;
  }

  /** A key with no dot in it is a plain `payload.get(key)`, with the default for a missing key or `None`. */
  lemma ResolvePlainKey(payload: Json, key: string, default: Json)
    requires key != "" && '.' !in key
    ensures Resolve(payload, Some(key), default) == if Field(payload, key) != JNull then Field(payload, key) else default
  {
    SplitNoSeparator(key, '.');
    if payload.JObject? {
      assert [key][0] == key && [key][1..] == [];
      assert Walk(payload, [key]) == Walk(Get(payload.fields, key), []) == Some(Field(payload, key));
    } else {
      assert Walk(payload, [key]) == None;
    }
  }

  /** The default is used only for a missing value: falsy values such as `0`, `""` or `false` are returned as they are. */
  lemma ResolveKeepsFalsy(payload: Json, key: string, default: Json)
    requires key != ""
    requires var w := Walk(payload, Split(key, '.')); w.Some? && w.value != JNull
    ensures Resolve(payload, Some(key), default) == Walk(payload, Split(key, '.')).value
  {
  }

  /** A path through a value that is not an object gives the default, whichever keys follow. */
  lemma {:induction false} ResolveThroughScalar(payload: Json, prefix: string, rest: string, default: Json)
    requires '.' !in prefix && prefix != ""
    requires var w := Walk(payload, [prefix]); w.Some? && !w.value.JObject?
    ensures Resolve(payload, Some(prefix + "." + rest), default) == default
  {
    SplitAfterPart(prefix, '.', rest);
    assert prefix + "." + rest == prefix + ['.'] + rest;
    var tail := Split(rest, '.');
    WalkAppend(payload, [prefix], tail);
    assert [prefix] + tail == Split(prefix + "." + rest, '.');
    assert |tail| >= 1;
  }

  /** A two-key path `a.b` reads `b` inside the object stored under `a`, and gives the default otherwise. */
  lemma ResolveNested(payload: Json, a: string, b: string, default: Json)
    requires '.' !in a && '.' !in b
    ensures var inner := Field(payload, a);
      Resolve(payload, Some(a + "." + b), default) == if inner.JObject? && Field(inner, b) != JNull then Field(inner, b) else default
  {
    SplitAfterPart(a, '.', b);
    SplitNoSeparator(b, '.');
    assert a + "." + b == a + ['.'] + b;
    var keys := [a] + [b];
    assert keys[0] == a && keys[1..] == [b] && [b][0] == b && [b][1..] == [];
    var inner := Field(payload, a);
    if payload.JObject? {
      assert Walk(payload, keys) == Walk(inner, [b]);
      if inner.JObject? {
        assert Walk(inner, [b]) == Walk(Field(inner, b), []);
      } else {
        assert Walk(inner, [b]) == None;
      }
    } else {
      assert Walk(payload, keys) == None;
    }
  }

  /** The documented nested look-ups: `"booking.id"` and `"property.id"` are found, `"nonexistent.field"` is not. */
  lemma NestedExample(payload: Json)
    requires payload == JObject(map[
      "booking" := JObject(map["id" := JString("BK-999"), "status" := JString("confirmed")]),
      "property" := JObject(map["id" := JInt(100)])])
    ensures NestedLookup(payload, "booking", "id") == JString("BK-999")
    ensures NestedLookup(payload, "property", "id") == JInt(100)
    ensures NestedLookup(payload, "nonexistent", "field") == JNull
  {
    assert "nonexistent" !in payload.fields;
  }

  /** `_get_value(a + "." + b)` without a default. */
  function NestedLookup(payload: Json, a: string, b: string): (v: Json)
    requires '.' !in a && '.' !in b
    ensures v == Resolve(payload, Some(a + "." + b), JNull)
  {
    ResolveNested(payload, a, b, JNull);
    var inner := Field(payload, a);
    if inner.JObject? && Field(inner, b) != JNull then Field(inner, b) else JNull
  }

  // ---------------------------------------------------------------------
  // Coercions
  // ---------------------------------------------------------------------

  /**
   * `_safe_int`: `int(value) if value else None`, with `None` where `int`
   * raises. `int` of a text accepts surrounding whitespace and an optional
   * sign; `True` is 1; lists and dictionaries are refused.
   */
  function SafeInt(v: Json): (r: Option<int>)
    ensures !Truthy(v) ==> r.None?
    ensures v.JBool? && v.b ==> r == Some(1)
    ensures v.JInt? && v.n != 0 ==> r == Some(v.n)
    ensures v.JString? ==> r == (if v.s == "" then None else ParseInt(Strip(v.s)))
    ensures v.JArray? || v.JObject? || v.JNull? ==> r.None?
  {
    match v
    case JNull => None
    case JBool(b) => if b then Some(1) else None
    case JInt(n) => if n != 0 then Some(n) else None
    case JString(s) =>
      if s == "" then None
      else ParseInt(Strip(s))
    case JArray(_) => None
    case JObject(_) => None
  }

  /**
   * `_normalize_event_type`: an absent or empty token is "unknown"; a text
   * token is looked up as it is in the status table, and one the table
   * does not know is returned lower-cased. `None` stands for the exception
   * `.lower()` raises on a token that is truthy but not text.
   */
  function NormalizeEventType(v: Json, statusValues: map<string, string>): (r: Option<string>)
    ensures !Truthy(v) ==> r == Some("unknown")
    ensures r.None? <==> Truthy(v) && !v.JString?
    ensures r.Some? && Truthy(v) ==> v.JString? && (if v.s in statusValues then r.value == statusValues[v.s] else r.value == Lower(v.s))
  {
    if !Truthy(v) then Some("unknown")
    else if v.JString? then Some(if v.s in statusValues then statusValues[v.s] else Lower(v.s))
    else None
  }

  /** Every normalised event type is "unknown", a value of the status table, or text without capitals. */
  lemma NormalizedIsTableValueOrLower(v: Json, statusValues: map<string, string>)
    requires NormalizeEventType(v, statusValues).Some?
    ensures var t := NormalizeEventType(v, statusValues).value;
      t == "unknown" || t in statusValues.Values || forall i :: 0 <= i < |t| ==> !IsUpper(t[i])
  {
    var t := NormalizeEventType(v, statusValues).value;
    if Truthy(v) && v.s !in statusValues {
      LowerIsLower(v.s);
    }
  }

  /** The table is looked up before lower-casing: "cancelled" becomes "canceled", but "CANCELLED" only "cancelled". */
  lemma CancelledSpellings()
    ensures NormalizeEventType(JString("cancelled"), HomeReserve.statusValues) == Some("canceled")
    ensures NormalizeEventType(JString("CANCELLED"), HomeReserve.statusValues) == Some("cancelled")
  {
    assert "CANCELLED" !in HomeReserve.statusValues;
    assert Lower("CANCELLED") == "cancelled";
  }

  // ---------------------------------------------------------------------
  // Parse
  // ---------------------------------------------------------------------

  /** The normalised dictionary `parse` returns; its ten keys are the fields. */
  datatype Canonical = Canonical(
    provider: string,
    eventId: Json,
    eventType: string,
    apartmentId: Option<int>,
    checkIn: Json,
    checkOut: Json,
    totalAmount: Option<int>,
    currency: Json,
    phone: Json,
    email: Json)

  function IntOrNull(o: Option<int>): Json {
    if o.Some? then JInt(o.value) else JNull
  }

  const CanonicalKeys: set<string> := {"provider", "event_id", "event_type", "apartment_id", "check_in",
                                       "check_out", "total_amount", "currency", "phone", "email"}

  /** The record as the dictionary the route reads with `parsed.get(...)`. */
  function ToDict(c: Canonical): (d: map<string, Json>)
    ensures d.Keys == CanonicalKeys
    ensures d["provider"] == JString(c.provider) && d["event_type"] == JString(c.eventType)
    ensures "source_tag" !in d
  {
    map["provider" := JString(c.provider), "event_id" := c.eventId, "event_type" := JString(c.eventType),
        "apartment_id" := IntOrNull(c.apartmentId), "check_in" := c.checkIn, "check_out" := c.checkOut,
        "total_amount" := IntOrNull(c.totalAmount), "currency" := c.currency, "phone" := c.phone,
        "email" := c.email]
  }

  function ValueAt(payload: Json, path: string): Json {
    Resolve(payload, Some(path), JNull)
  }

  /**
   * `WebhookParser(provider, payload).parse()`: `None` for a provider
   * without a table, and for the exception a non-text status raises;
   * otherwise the ten canonical fields.
   */
  function Parse(provider: string, payload: Json): (r: Option<Canonical>)
    ensures GetMapping(provider).None? ==> r.None?
    ensures r.Some? ==> r.value.provider == provider && r.value.currency != JNull
  {
    var m :- GetMapping(provider);
    var eventType :- NormalizeEventType(ValueAt(payload, m.eventType), m.statusValues);
    Some(Canonical(
      provider,
      ValueAt(payload, m.eventId),
      eventType,
      SafeInt(ValueAt(payload, m.apartmentId)),
      ValueAt(payload, m.checkIn),
      ValueAt(payload, m.checkOut),
      SafeInt(ValueAt(payload, m.totalAmount)),
      Resolve(payload, Some(m.currency), JString("RUB")),
      ValueAt(payload, m.phone),
      ValueAt(payload, m.email)))
  }

  /** An unregistered provider is never parsed, whatever the payload. */
  lemma UnknownProviderNotParsed(provider: string, payload: Json)
    requires provider != "homereserve" && provider != "booking_com"
    ensures Parse(provider, payload).None?
  {
  }

  /**
   * For a registered provider, parsing fails exactly when the status field
   * holds a truthy value that is not text.
   */
  lemma ParseFailsIff(provider: string, payload: Json)
    requires GetMapping(provider).Some?
    ensures var st := ValueAt(payload, GetMapping(provider).value.eventType);
      Parse(provider, payload).None? <==> Truthy(st) && !st.JString?
  {
  }

  /** A parse that fails for a registered provider saw an object payload: the status is found only inside one. */
  lemma ParseFailureNeedsObject(provider: string, payload: Json)
    requires GetMapping(provider).Some? && Parse(provider, payload).None?
    ensures payload.JObject?
  {
    ParseByKeys(provider, payload, GetMapping(provider).value);
  }

  /** A successful parse copies the provider and has the ten canonical keys. */
  lemma ParseCopiesProvider(provider: string, payload: Json)
    requires Parse(provider, payload).Some?
    ensures Parse(provider, payload).value.provider == provider
    ensures ToDict(Parse(provider, payload).value).Keys == CanonicalKeys
  {
  }

  /** The currency is the payload's own field when present, and "RUB" when it is missing or `None`. */
  lemma ParseCurrencyDefault(provider: string, payload: Json)
    requires Parse(provider, payload).Some?
    ensures var key := GetMapping(provider).value.currency;
      Parse(provider, payload).value.currency == if Field(payload, key) != JNull then Field(payload, key) else JString("RUB")
  {
    ParseByKeys(provider, payload, GetMapping(provider).value);
  }

  /** `payload.get(k)`, or `d` for a missing key or `None`: what `_get_value(k, d)` is for a key without dots. */
  function FieldOr(payload: Json, k: string, d: Json): Json {
    if Field(payload, k) != JNull then Field(payload, k) else d
  }

  predicate PlainPath(k: string) { k != "" && '.' !in k }

  /** Every path of the table is a single non-empty key. */
  predicate PlainMapping(m: ProviderMapping) {
    PlainPath(m.eventId) && PlainPath(m.eventType) && PlainPath(m.apartmentId) && PlainPath(m.checkIn)
    && PlainPath(m.checkOut) && PlainPath(m.totalAmount) && PlainPath(m.currency) && PlainPath(m.phone)
    && PlainPath(m.email)
  }

  /** The registered tables use only top-level keys. */
  lemma MappingsArePlain(provider: string)
    requires GetMapping(provider).Some?
    ensures PlainMapping(GetMapping(provider).value)
  {
    if provider == "homereserve" {
      HomeReserveIsPlain();
    } else {
      BookingComIsPlain();
    }
  }

  lemma HomeReserveIsPlain()
    ensures PlainMapping(HomeReserve)
  {
  }

  lemma BookingComIsPlain()
    ensures PlainMapping(BookingCom)
  {
  }

  /**
   * With top-level keys only, parsing reads each field straight from the
   * payload object: it fails exactly on a status that is truthy and not
   * text, and otherwise every field is the key's value or its default.
   */
  lemma ParseByKeys(provider: string, payload: Json, m: ProviderMapping)
    requires GetMapping(provider) == Some(m)
    ensures var st := FieldOr(payload, m.eventType, JNull);
      Parse(provider, payload) ==
        if Truthy(st) && !st.JString? then None
        else Some(Canonical(
          provider,
          FieldOr(payload, m.eventId, JNull),
          NormalizeEventType(st, m.statusValues).value,
          SafeInt(FieldOr(payload, m.apartmentId, JNull)),
          FieldOr(payload, m.checkIn, JNull),
          FieldOr(payload, m.checkOut, JNull),
          SafeInt(FieldOr(payload, m.totalAmount, JNull)),
          FieldOr(payload, m.currency, JString("RUB")),
          FieldOr(payload, m.phone, JNull),
          FieldOr(payload, m.email, JNull)))
  {
    MappingsArePlain(provider);
    PlainFields(payload, m);
  }

  lemma PlainFields(payload: Json, m: ProviderMapping)
    requires PlainMapping(m)
    ensures ValueAt(payload, m.eventId) == FieldOr(payload, m.eventId, JNull)
    ensures ValueAt(payload, m.eventType) == FieldOr(payload, m.eventType, JNull)
    ensures ValueAt(payload, m.apartmentId) == FieldOr(payload, m.apartmentId, JNull)
    ensures ValueAt(payload, m.checkIn) == FieldOr(payload, m.checkIn, JNull)
    ensures ValueAt(payload, m.checkOut) == FieldOr(payload, m.checkOut, JNull)
    ensures ValueAt(payload, m.totalAmount) == FieldOr(payload, m.totalAmount, JNull)
    ensures Resolve(payload, Some(m.currency), JString("RUB")) == FieldOr(payload, m.currency, JString("RUB"))
    ensures ValueAt(payload, m.phone) == FieldOr(payload, m.phone, JNull)
    ensures ValueAt(payload, m.email) == FieldOr(payload, m.email, JNull)
  {
    ResolvePlainKey(payload, m.eventId, JNull);
    ResolvePlainKey(payload, m.eventType, JNull);
    ResolvePlainKey(payload, m.apartmentId, JNull);
    ResolvePlainKey(payload, m.checkIn, JNull);
    ResolvePlainKey(payload, m.checkOut, JNull);
    ResolvePlainKey(payload, m.totalAmount, JNull);
    ResolvePlainKey(payload, m.currency, JString("RUB"));
    ResolvePlainKey(payload, m.phone, JNull);
    ResolvePlainKey(payload, m.email, JNull);
  }

  /** The sample HomeReserve booking from the test suite: any payload whose keys hold these values. */
  lemma HomeReserveSample(payload: Json)
    requires payload.JObject?
    requires var f := payload.fields;
      Get(f, "booking_id") == JString("BK-12345") && Get(f, "status") == JString("paid")
      && Get(f, "apartment_id") == JInt(42) && Get(f, "check_in_date") == JString("2024-02-15")
      && Get(f, "check_out_date") == JString("2024-02-17") && Get(f, "price") == JInt(5000)
      && Get(f, "currency") == JString("RUB") && Get(f, "guest_phone") == JString("+79001234567")
      && Get(f, "guest_email") == JString("guest@example.com")
    ensures Parse("homereserve", payload).Some?
    ensures var c := Parse("homereserve", payload).value;
      c.eventId == JString("BK-12345") && c.eventType == "paid" && c.apartmentId == Some(42)
      && c.checkIn == JString("2024-02-15") && c.checkOut == JString("2024-02-17")
      && c.totalAmount == Some(5000) && c.currency == JString("RUB") && c.phone == JString("+79001234567")
  {
    ParseByKeys("homereserve", payload, HomeReserve);
  }

  // ---------------------------------------------------------------------
  // Payload hash
  // ---------------------------------------------------------------------

  /** What `calculate_payload_hash` returns: 64 lower-case hexadecimal characters. The digest function itself is not modelled. */
  type Digest = s: string | |s| == 64 && forall i :: 0 <= i < |s| ==> IsLowerHex(s[i])
    witness seq(64, _ => '0')
}
