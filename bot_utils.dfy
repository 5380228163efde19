/**
 * The bot's text helpers (`app/bot/utils.py`): the booking link with its
 * attribution parameters, the features line of an apartment card, and the
 * reading of a date range typed as "DD.MM-DD.MM". The current year, read
 * from the clock in the source, is a parameter.
 */
module BotUtils {
  import opened Wrappers
  import opened Text
  import opened Config

  // ---------------------------------------------------------------------
  // Query strings: `urllib.parse.urlencode` with `quote_plus`
  // ---------------------------------------------------------------------

  /** The characters `quote_plus` never escapes: letters, digits and `_.-~`. */
  predicate Unreserved(c: char) {
    ('a' <= c <= 'z') || ('A' <= c <= 'Z') || ('0' <= c <= '9') || c == '_' || c == '.' || c == '-' || c == '~'
  }

  /** What an escaped text is made of. */
  predicate QuotedChar(c: char) {
    Unreserved(c) || c == '+' || c == '%'
  }

  function HexDigitUpper(d: nat): (c: char)
    requires d < 16
    ensures Unreserved(c)
  {
    if d < 10 then ('0' as int + d) as char else ('A' as int + d - 10) as char
  }

  /** The UTF-8 encoding of one character. */
  function Utf8(c: char): (bytes: seq<nat>)
    ensures 1 <= |bytes| <= 4
  {
    var n := c as int;
    if n < 0x80 then [n]
    else if n < 0x800 then [0xC0 + n / 64, 0x80 + n % 64]
    else if n < 0x10000 then [0xE0 + n / 4096, 0x80 + n / 64 % 64, 0x80 + n % 64]
    else [0xF0 + n / 262144, 0x80 + n / 4096 % 64, 0x80 + n / 64 % 64, 0x80 + n % 64]
  }

  /** `%XX` for every byte, in upper-case hexadecimal. */
  function PercentBytes(bytes: seq<nat>): (r: string)
    ensures forall i :: 0 <= i < |r| ==> QuotedChar(r[i])
    decreases |bytes|
  {
    if bytes == [] then ""
    else ['%', HexDigitUpper(bytes[0] / 16 % 16), HexDigitUpper(bytes[0] % 16)] + PercentBytes(bytes[1..])
  }

  /** `quote_plus` of one character: itself when unreserved, `+` for a space, its escaped UTF-8 bytes otherwise. */
  function QuoteChar(c: char): (r: string)
    ensures forall i :: 0 <= i < |r| ==> QuotedChar(r[i])
    ensures |r| >= 1
    ensures Unreserved(c) ==> r == [c]
  {
    if Unreserved(c) then [c]
    else if c == ' ' then "+"
    else PercentBytes(Utf8(c))
  }

  /** `quote_plus(t)` with no extra safe characters. */
  function QuotePlus(t: string): (r: string)
    ensures forall i :: 0 <= i < |r| ==> QuotedChar(r[i])
    ensures |r| >= |t|
    decreases |t|
  {
    if t == [] then "" else QuoteChar(t[0]) + QuotePlus(t[1..])
  }

  /** Text of plain characters is its own escape. */
  predicate Plain(t: string) {
    forall i :: 0 <= i < |t| ==> Unreserved(t[i])
  }

  /** Unreserved text is passed through unchanged. */
  lemma {:induction false} QuotePlusKeepsUnreserved(t: string)
    requires Plain(t)
    ensures QuotePlus(t) == t
    decreases |t|
  {
    if t != [] {
      assert Plain(t[1..]) by { assert forall i :: 0 <= i < |t| - 1 ==> t[1..][i] == t[i + 1]; }
      QuotePlusKeepsUnreserved(t[1..]);
      assert [t[0]] + t[1..] == t;
    }
  }

  /** An escaped text never holds the separators of a query string. */
  lemma QuotedHasNoSeparators(t: string)
    ensures '&' !in QuotePlus(t) && '=' !in QuotePlus(t) && '#' !in QuotePlus(t)
  {
    var q := QuotePlus(t);
    forall i | 0 <= i < |q| ensures q[i] != '&' && q[i] != '=' && q[i] != '#' {
      assert QuotedChar(q[i]);
    }
  }

  /**
   * A dictionary display `{k1: v1, ...}` as an ordered list of items: a key
   * given twice keeps its first position and takes its last value.
   */
  function DictSet(items: seq<(string, string)>, k: string, v: string): (r: seq<(string, string)>)
    ensures (exists i :: 0 <= i < |items| && items[i].0 == k) ==> |r| == |items|
    ensures (forall i :: 0 <= i < |items| ==> items[i].0 != k) ==> r == items + [(k, v)]
    decreases |items|
  {
    if items == [] then [(k, v)]
    else if items[0].0 == k then [(k, v)] + items[1..]
    else [items[0]] + DictSet(items[1..], k, v)
  }

  /** `urlencode(items)`: `key=value` pairs, each side escaped, joined by `&`. */
  function UrlEncode(items: seq<(string, string)>): string {
    Join(EncodedPairs(items), "&")
  }

  function EncodedPairs(items: seq<(string, string)>): (r: seq<string>)
    ensures |r| == |items|
    ensures forall i :: 0 <= i < |items| ==> r[i] == QuotePlus(items[i].0) + "=" + QuotePlus(items[i].1)
    decreases |items|
  {
    if items == [] then [] else [QuotePlus(items[0].0) + "=" + QuotePlus(items[0].1)] + EncodedPairs(items[1..])
  }

  /** The four attribution parameters of a booking link, as the dictionary display builds them. */
  function BookingParams(s: Settings, apartmentId: int, source: string, medium: string): seq<(string, string)> {
    var d0 := DictSet([], s.bookingTagParam, source);
    var d1 := DictSet(d0, "utm_source", "tg");
    var d2 := DictSet(d1, "utm_medium", medium);
    DictSet(d2, "utm_campaign", "apartment_" + IntToString(apartmentId))
  }

  /** `build_booking_url`: the booking base URL, `?`, and the encoded parameters. */
  function BuildBookingUrl(s: Settings, apartmentId: int, source: string, medium: string): (url: string)
    ensures |url| > |s.bookingBaseUrl| && url[..|s.bookingBaseUrl|] == s.bookingBaseUrl && url[|s.bookingBaseUrl|] == '?'
  {
    s.bookingBaseUrl + "?" + UrlEncode(BookingParams(s, apartmentId, source, medium))
  }

  /** The default source and medium: `source="tg_bot"`, `medium="bot"`. */
  function BuildBookingUrlDefault(s: Settings, apartmentId: int): string {
    BuildBookingUrl(s, apartmentId, "tg_bot", "bot")
  }

  /** Splitting an encoded query on `&`, then each pair on `=`, gives back the escaped names and values. */
  lemma EncodedQuerySplits(items: seq<(string, string)>)
    requires items != []
    ensures Split(UrlEncode(items), '&') == EncodedPairs(items)
    ensures forall i :: 0 <= i < |items| ==>
      Split(EncodedPairs(items)[i], '=') == [QuotePlus(items[i].0), QuotePlus(items[i].1)]
  {
    var enc := EncodedPairs(items);
    forall i | 0 <= i < |enc| ensures '&' !in enc[i] {
      EncodedPairHasNoAmpersand(items[i]);
    }
    SplitJoin(enc, '&');
    forall i | 0 <= i < |items| ensures Split(enc[i], '=') == [QuotePlus(items[i].0), QuotePlus(items[i].1)] {
      EncodedPairSplits(items[i]);
    }
  }

  lemma EncodedPairHasNoAmpersand(item: (string, string))
    ensures '&' !in QuotePlus(item.0) + "=" + QuotePlus(item.1)
  {
    QuotedHasNoSeparators(item.0);
    QuotedHasNoSeparators(item.1);
  }

  lemma EncodedPairSplits(item: (string, string))
    ensures Split(QuotePlus(item.0) + "=" + QuotePlus(item.1), '=') == [QuotePlus(item.0), QuotePlus(item.1)]
  {
    QuotedHasNoSeparators(item.0);
    QuotedHasNoSeparators(item.1);
    SplitAfterPart(QuotePlus(item.0), '=', QuotePlus(item.1));
    SplitNoSeparator(QuotePlus(item.1), '=');
  }

  /** For a tag parameter other than the three fixed names, the link carries the four parameters in this order. */
  lemma BookingParamsInOrder(s: Settings, apartmentId: int, source: string, medium: string)
    requires s.bookingTagParam != "utm_source" && s.bookingTagParam != "utm_medium" && s.bookingTagParam != "utm_campaign"
    ensures BookingParams(s, apartmentId, source, medium) ==
      [(s.bookingTagParam, source), ("utm_source", "tg"), ("utm_medium", medium),
       ("utm_campaign", "apartment_" + IntToString(apartmentId))]
  {
  }

  /**
   * Hence the query of such a link splits into exactly four `name=value`
   * pairs: the tag with the source, `utm_source` with "tg", `utm_medium`
   * with the medium and `utm_campaign` with "apartment_<id>", each escaped.
   */
  lemma BookingQueryPairs(s: Settings, apartmentId: int, source: string, medium: string)
    requires s.bookingTagParam != "utm_source" && s.bookingTagParam != "utm_medium" && s.bookingTagParam != "utm_campaign"
    ensures var items := BookingParams(s, apartmentId, source, medium);
      var pairs := Split(UrlEncode(items), '&');
      && |pairs| == 4
      && Split(pairs[0], '=') == [QuotePlus(s.bookingTagParam), QuotePlus(source)]
      && Split(pairs[1], '=') == [QuotePlus("utm_source"), QuotePlus("tg")]
      && Split(pairs[2], '=') == [QuotePlus("utm_medium"), QuotePlus(medium)]
      && Split(pairs[3], '=') == [QuotePlus("utm_campaign"), QuotePlus("apartment_" + IntToString(apartmentId))]
  {
    BookingParamsInOrder(s, apartmentId, source, medium);
    EncodedQuerySplits(BookingParams(s, apartmentId, source, medium));
  }

  // ---------------------------------------------------------------------
  // Reading a link back: `urlparse` and `parse_qs`
  // ---------------------------------------------------------------------

  /** One hexadecimal digit, either case. */
  function Unhex(c: char): (r: Option<nat>)
    ensures r.Some? ==> r.value < 16
  {
    if '0' <= c <= '9' then Some(c as int - '0' as int)
    else if 'A' <= c <= 'F' then Some(c as int - 'A' as int + 10)
    else if 'a' <= c <= 'f' then Some(c as int - 'a' as int + 10)
    else None
  }

  lemma UnhexHex(d: nat)
    requires d < 16
    ensures Unhex(HexDigitUpper(d)) == Some(d)
  {
  }

  /**
   * `unquote_plus`: `+` is a space and `%XX` the byte XX; every other
   * character stands for itself. Each byte becomes one character, so only
   * the ASCII range is decoded as Python decodes it.
   */
  function UnquotePlus(t: string): string
    decreases |t|
  {
    if t == [] then ""
    else if t[0] == '+' then " " + UnquotePlus(t[1..])
    else if t[0] == '%' && |t| >= 3 && Unhex(t[1]).Some? && Unhex(t[2]).Some? then
      [(16 * Unhex(t[1]).value + Unhex(t[2]).value) as char] + UnquotePlus(t[3..])
    else [t[0]] + UnquotePlus(t[1..])
  }

  predicate Ascii(t: string) {
    forall i :: 0 <= i < |t| ==> t[i] as int < 128
  }

  lemma UnquoteQuoteChar(c: char, rest: string)
    requires c as int < 128
    ensures UnquotePlus(QuoteChar(c) + rest) == [c] + UnquotePlus(rest)
  {
    var q := QuoteChar(c) + rest;
    if Unreserved(c) {
      assert q[0] == c && q[1..] == rest;
    } else if c == ' ' {
      assert q[0] == '+' && q[1..] == rest;
    } else {
      var n := c as int;
      assert Utf8(c) == [n];
      var h, l := HexDigitUpper(n / 16), HexDigitUpper(n % 16);
      assert PercentBytes([n]) == ['%', h, l] + PercentBytes([]);
      UnhexHex(n / 16);
      UnhexHex(n % 16);
      assert q[0] == '%' && q[1] == h && q[2] == l && q[3..] == rest;
    }
  }

  /** `unquote_plus(quote_plus(t)) == t` for ASCII text. */
  lemma {:induction false} UnquoteQuote(t: string)
    requires Ascii(t)
    ensures UnquotePlus(QuotePlus(t)) == t
    decreases |t|
  {
    if t != [] {
      UnquoteQuoteChar(t[0], QuotePlus(t[1..]));
      assert Ascii(t[1..]) by { assert forall i :: 0 <= i < |t| - 1 ==> t[1..][i] == t[i + 1]; }
      UnquoteQuote(t[1..]);
      assert [t[0]] + t[1..] == t;
    }
  }

  /**
   * The query of a URL, as `urlparse` finds it: after the first `?` of what
   * precedes the first `#`, or empty.
   */
  function UrlQuery(url: string): string {
    var beforeFragment := Split(url, '#')[0];
    var pieces := Split(beforeFragment, '?');
    if |pieces| >= 2 then Join(pieces[1..], "?") else ""
  }

  /**
   * `parse_qs(query)[key][0]`: the value of the first `&`-separated pair
   * whose name is `key`, split at its first `=`; pairs without `=` or with an
   * empty value are dropped.
   */
  function QueryValue(query: string, key: string): Option<string> {
    PairsValue(Split(query, '&'), key)
  }

  function PairsValue(pairs: seq<string>, key: string): Option<string>
    decreases |pairs|
  {
    if pairs == [] then None
    else
      var nv := Split(pairs[0], '=');
      if |nv| >= 2 && Join(nv[1..], "=") != "" && UnquotePlus(nv[0]) == key then
        Some(UnquotePlus(Join(nv[1..], "=")))
      else PairsValue(pairs[1..], key)
  }

  /** The reference reading of a parameter list: the first non-empty value given for the key. */
  function FirstValue(items: seq<(string, string)>, key: string): Option<string>
    decreases |items|
  {
    if items == [] then None
    else if items[0].0 == key && items[0].1 != "" then Some(items[0].1)
    else FirstValue(items[1..], key)
  }

  /** Decoding encoded ASCII pairs finds what the list says. */
  lemma {:induction false} DecodeEncodedPairs(items: seq<(string, string)>, key: string)
    requires forall i :: 0 <= i < |items| ==> Ascii(items[i].0) && Ascii(items[i].1)
    ensures PairsValue(EncodedPairs(items), key) == FirstValue(items, key)
    decreases |items|
  {
    if items != [] {
      var enc := EncodedPairs(items);
      var k, v := QuotePlus(items[0].0), QuotePlus(items[0].1);
      EncodedPairSplits(items[0]);
      assert Split(enc[0], '=')[1..] == [v];
      UnquoteQuote(items[0].0);
      UnquoteQuote(items[0].1);
      assert v == "" <==> items[0].1 == "";
      assert enc[1..] == EncodedPairs(items[1..]);
      DecodeEncodedPairs(items[1..], key);
    }
  }

  /** A base URL without `?` or `#` keeps the encoded parameters as the query of the link. */
  lemma {:induction false} LinkQuery(base: string, items: seq<(string, string)>)
    requires '?' !in base && '#' !in base
    requires items != []
    ensures UrlQuery(base + "?" + UrlEncode(items)) == UrlEncode(items)
  {
    var q := UrlEncode(items);
    assert '#' !in q && '?' !in q by {
      EncodedQuerySplits(items);
      EncodedHasNoHash(EncodedPairs(items), items);
    }
    var url := base + "?" + q;
    assert '#' !in url;
    SplitNoSeparator(url, '#');
    SplitAfterPart(base, '?', q);
    SplitNoSeparator(q, '?');
  }

  lemma {:induction false} EncodedHasNoHash(enc: seq<string>, items: seq<(string, string)>)
    requires enc == EncodedPairs(items)
    ensures '#' !in Join(enc, "&") && '?' !in Join(enc, "&")
    decreases |enc|
  {
    if enc != [] {
      QuotedHasNoSeparators(items[0].0);
      QuotedHasNoSeparators(items[0].1);
      assert '#' !in enc[0] && '?' !in enc[0];
      if |enc| > 1 {
        assert enc[1..] == EncodedPairs(items[1..]);
        EncodedHasNoHash(enc[1..], items[1..]);
      }
    }
  }

  lemma CampaignAscii(apartmentId: int)
    ensures Ascii("apartment_" + IntToString(apartmentId))
  {
    var digits := NatToString(if apartmentId < 0 then -apartmentId else apartmentId);
    assert Ascii(digits) by { assert forall i :: 0 <= i < |digits| ==> IsDigit(digits[i]); }
    assert Ascii("apartment_");
    assert "apartment_" + IntToString(apartmentId) == "apartment_" + (if apartmentId < 0 then "-" else "") + digits;
  }

  lemma FixedNamesAscii()
    ensures Ascii("utm_source") && Ascii("tg") && Ascii("utm_medium") && Ascii("utm_campaign")
  {
  }

  /** Every name and value of a booking link is ASCII when the tag parameter, the source and the medium are. */
  lemma BookingParamsAscii(s: Settings, apartmentId: int, source: string, medium: string)
    requires s.bookingTagParam != "utm_source" && s.bookingTagParam != "utm_medium" && s.bookingTagParam != "utm_campaign"
    requires Ascii(s.bookingTagParam) && Ascii(source) && Ascii(medium)
    ensures var items := BookingParams(s, apartmentId, source, medium);
      forall i :: 0 <= i < |items| ==> Ascii(items[i].0) && Ascii(items[i].1)
  {
    BookingParamsInOrder(s, apartmentId, source, medium);
    CampaignAscii(apartmentId);
    FixedNamesAscii();
  }

  /** The reference reading of the four parameters. */
  lemma BookingParamsValues(s: Settings, apartmentId: int, source: string, medium: string)
    requires s.bookingTagParam != "utm_source" && s.bookingTagParam != "utm_medium" && s.bookingTagParam != "utm_campaign"
    ensures var items := BookingParams(s, apartmentId, source, medium);
      && FirstValue(items, s.bookingTagParam) == (if source == "" then None else Some(source))
      && FirstValue(items, "utm_source") == Some("tg")
      && FirstValue(items, "utm_medium") == (if medium == "" then None else Some(medium))
      && FirstValue(items, "utm_campaign") == Some("apartment_" + IntToString(apartmentId))
  {
    BookingParamsInOrder(s, apartmentId, source, medium);
    var a, b, c, d := (s.bookingTagParam, source), ("utm_source", "tg"), ("utm_medium", medium),
      ("utm_campaign", "apartment_" + IntToString(apartmentId));
    FirstValueOfFour(a, b, c, d, s.bookingTagParam);
    FirstValueOfFour(a, b, c, d, "utm_source");
    FirstValueOfFour(a, b, c, d, "utm_medium");
    FirstValueOfFour(a, b, c, d, "utm_campaign");
  }

  lemma FirstValueOfFour(a: (string, string), b: (string, string), c: (string, string), d: (string, string), key: string)
    ensures FirstValue([a, b, c, d], key) ==
      if a.0 == key && a.1 != "" then Some(a.1)
      else if b.0 == key && b.1 != "" then Some(b.1)
      else if c.0 == key && c.1 != "" then Some(c.1)
      else if d.0 == key && d.1 != "" then Some(d.1)
      else None
  {
    var s4, s3, s2, s1 := [a, b, c, d], [b, c, d], [c, d], [d];
    assert s4[1..] == s3 && s3[1..] == s2 && s2[1..] == s1 && s1[1..] == [];
    assert FirstValue(s1, key) == (if d.0 == key && d.1 != "" then Some(d.1) else None);
    assert FirstValue(s2, key) == (if c.0 == key && c.1 != "" then Some(c.1) else FirstValue(s1, key));
    assert FirstValue(s3, key) == (if b.0 == key && b.1 != "" then Some(b.1) else FirstValue(s2, key));
  }

  /** The query of a booking link read with `parse_qs` is its parameter list read directly. */
  lemma BookingQueryDecodes(s: Settings, apartmentId: int, source: string, medium: string, key: string)
    requires '?' !in s.bookingBaseUrl && '#' !in s.bookingBaseUrl
    requires s.bookingTagParam != "utm_source" && s.bookingTagParam != "utm_medium" && s.bookingTagParam != "utm_campaign"
    requires Ascii(s.bookingTagParam) && Ascii(source) && Ascii(medium)
    ensures QueryValue(UrlQuery(BuildBookingUrl(s, apartmentId, source, medium)), key) ==
      FirstValue(BookingParams(s, apartmentId, source, medium), key)
  {
    var items := BookingParams(s, apartmentId, source, medium);
    BookingParamsInOrder(s, apartmentId, source, medium);
    LinkQuery(s.bookingBaseUrl, items);
    EncodedQuerySplits(items);
    BookingParamsAscii(s, apartmentId, source, medium);
    DecodeEncodedPairs(items, key);
  }

  /**
   * Reading the link back as its target does: each parameter is found under
   * its name with the value given, for a base URL without `?` or `#`, a tag
   * parameter other than the fixed names and ASCII text. An empty source or
   * medium is dropped by `parse_qs`.
   */
  lemma BookingUrlReadsBack(s: Settings, apartmentId: int, source: string, medium: string)
    requires '?' !in s.bookingBaseUrl && '#' !in s.bookingBaseUrl
    requires s.bookingTagParam != "utm_source" && s.bookingTagParam != "utm_medium" && s.bookingTagParam != "utm_campaign"
    requires Ascii(s.bookingTagParam) && Ascii(source) && Ascii(medium)
    ensures var q := UrlQuery(BuildBookingUrl(s, apartmentId, source, medium));
      && QueryValue(q, s.bookingTagParam) == (if source == "" then None else Some(source))
      && QueryValue(q, "utm_source") == Some("tg")
      && QueryValue(q, "utm_medium") == (if medium == "" then None else Some(medium))
      && QueryValue(q, "utm_campaign") == Some("apartment_" + IntToString(apartmentId))
  {
    BookingParamsValues(s, apartmentId, source, medium);
    BookingQueryDecodes(s, apartmentId, source, medium, s.bookingTagParam);
    BookingQueryDecodes(s, apartmentId, source, medium, "utm_source");
    BookingQueryDecodes(s, apartmentId, source, medium, "utm_medium");
    BookingQueryDecodes(s, apartmentId, source, medium, "utm_campaign");
  }

  lemma ApartmentText()
    ensures "apartment_" + IntToString(123) == "apartment_123"
  {
    assert DigitChar(1) == '1' && DigitChar(2) == '2' && DigitChar(3) == '3';
    assert NatToString(1) == ['1'];
    assert NatToString(12) == ['1'] + ['2'];
    assert NatToString(123) == ['1', '2'] + ['3'];
    assert IntToString(123) == "123";
  }

  /** With the default tag parameter "tag", a link for apartment 123 from the bot carries tag "tg_bot", medium "bot" and campaign "apartment_123". */
  lemma BotLinkExample(s: Settings)
    requires s.bookingTagParam == "tag" && '?' !in s.bookingBaseUrl && '#' !in s.bookingBaseUrl
    ensures var q := UrlQuery(BuildBookingUrl(s, 123, "tg_bot", "bot"));
      QueryValue(q, "tag") == Some("tg_bot") && QueryValue(q, "utm_medium") == Some("bot") &&
      QueryValue(q, "utm_campaign") == Some("apartment_123")
  {
    assert Ascii("tag") && Ascii("tg_bot") && Ascii("bot");
    BookingUrlReadsBack(s, 123, "tg_bot", "bot");
    ApartmentText();
  }

  /** The same for apartment 456 from the channel: tag "tg_channel", medium "channel". */
  lemma ChannelLinkExample(s: Settings)
    requires s.bookingTagParam == "tag" && '?' !in s.bookingBaseUrl && '#' !in s.bookingBaseUrl
    ensures var q := UrlQuery(BuildBookingUrl(s, 456, "tg_channel", "channel"));
      QueryValue(q, "tag") == Some("tg_channel") && QueryValue(q, "utm_medium") == Some("channel")
  {
    assert Ascii("tag") && Ascii("tg_channel") && Ascii("channel");
    BookingUrlReadsBack(s, 456, "tg_channel", "channel");
  }

  /** A tag parameter named "utm_source" is overwritten by the fixed "tg": the source is lost and three parameters remain. */
  lemma TagParamCollision(s: Settings, apartmentId: int, source: string, medium: string)
    requires s.bookingTagParam == "utm_source"
    ensures BookingParams(s, apartmentId, source, medium) ==
      [("utm_source", "tg"), ("utm_medium", medium), ("utm_campaign", "apartment_" + IntToString(apartmentId))]
  {
  }

  // ---------------------------------------------------------------------
  // Apartment card: the features line
  // ---------------------------------------------------------------------

  const FeatureSeparator: string := " • "
  const NoFeaturesText: string := "Удобства в описании"

  /** `" • ".join(features[:5]) if features else "Удобства в описании"`, for `features_json or []`. */
  function FeaturesLine(features: Option<seq<string>>): (line: string)
    ensures features.None? || features == Some([]) ==> line == NoFeaturesText
    ensures features.Some? && features.value != [] ==> line == Join(Shown(features.value), FeatureSeparator)
  {
    var fs := if features.Some? then features.value else [];
    if fs == [] then NoFeaturesText else Join(Shown(fs), FeatureSeparator)
  }

  /** The features a card shows: the first five. */
  function Shown(fs: seq<string>): (r: seq<string>)
    ensures |r| == if |fs| < 5 then |fs| else 5
    ensures forall i :: 0 <= i < |r| ==> r[i] == fs[i]
  {
    fs[..if |fs| < 5 then |fs| else 5]
  }

  /** Features past the fifth never reach the card. */
  lemma FeaturesPastFifthIgnored(fs: seq<string>, more: seq<string>)
    requires |fs| >= 5
    ensures FeaturesLine(Some(fs + more)) == FeaturesLine(Some(fs))
  {
    assert Shown(fs + more) == Shown(fs);
  }

  function CountChar(s: string, c: char): (n: nat)
    ensures n <= |s|
    decreases |s|
  {
    if s == [] then 0 else (if s[0] == c then 1 else 0) + CountChar(s[1..], c)
  }

  lemma {:induction false} CountCharAppend(a: string, b: string, c: char)
    ensures CountChar(a + b, c) == CountChar(a, c) + CountChar(b, c)
    decreases |a|
  {
    if a == [] {
      assert a + b == b;
    } else {
      assert (a + b)[0] == a[0] && (a + b)[1..] == a[1..] + b;
      CountCharAppend(a[1..], b, c);
    }
  }

  /** Joined parts without the bullet hold one bullet per gap between them. */
  lemma {:induction false} JoinedBullets(parts: seq<string>)
    requires |parts| >= 1
    requires forall i :: 0 <= i < |parts| ==> CountChar(parts[i], '•') == 0
    ensures CountChar(Join(parts, FeatureSeparator), '•') == |parts| - 1
    decreases |parts|
  {
    if |parts| > 1 {
      JoinedBullets(parts[1..]);
      CountCharAppend(parts[0] + FeatureSeparator, Join(parts[1..], FeatureSeparator), '•');
      CountCharAppend(parts[0], FeatureSeparator, '•');
      assert CountChar(FeatureSeparator, '•') == 1;
    }
  }

  /** When no feature holds a bullet, the card shows as many features as it has, up to five. */
  lemma FeaturesShown(features: seq<string>)
    requires features != []
    requires forall i :: 0 <= i < |features| ==> CountChar(features[i], '•') == 0
    ensures CountChar(FeaturesLine(Some(features)), '•') + 1 == if |features| < 5 then |features| else 5
  {
    JoinedBullets(Shown(features));
  }

  // ---------------------------------------------------------------------
  // Date ranges: `parse_date_input`
  // ---------------------------------------------------------------------

  /** Python's `int(t)` on text: surrounding whitespace and a sign are accepted. */
  function PyInt(t: string): Option<int> {
    ParseInt(Strip(t))
  }

  /** `f"{n:02d}"`: at least two characters, a single digit padded with a zero. */
  function Pad2(n: int): (r: string)
    ensures |r| >= 2
    ensures 0 <= n < 10 ==> r == ['0', DigitChar(n)]
    ensures n >= 10 ==> r == NatToString(n)
  {
    if 0 <= n < 10 then "0" + IntToString(n)
    else
      assert n < 0 ==> |NatToString(-n)| >= 1;
      assert n >= 10 ==> |NatToString(n)| >= 2 by {
        if n >= 10 { assert NatToString(n) == NatToString(n / 10) + [DigitChar(n % 10)]; }
      }
      IntToString(n)
  }

  /** `f"{year}-{month:02d}-{day:02d}"`. */
  function IsoDate(year: int, month: int, day: int): string {
    IntToString(year) + "-" + Pad2(month) + "-" + Pad2(day)
  }

  /** `day, month = map(int, part.split("."))`: exactly two integers, or the error. */
  function DayMonth(part: string): (r: Option<(int, int)>)
    ensures r.Some? ==> |Split(part, '.')| == 2
    ensures r.Some? <==> |Split(part, '.')| == 2 && PyInt(Split(part, '.')[0]).Some? && PyInt(Split(part, '.')[1]).Some?
  {
    var fields := Split(part, '.');
    if |fields| != 2 then None
    else
      var day :- PyInt(fields[0]);
      var month :- PyInt(fields[1]);
      Some((day, month))
  }

  /**
   * `parse_date_input`: "DD.MM-DD.MM" read as check-in and check-out dates
   * of the given year, or `None` when the text does not split into two
   * parts of two integers each. Days and months are not range-checked.
   */
  function ParseDateInput(text: string, year: int): (r: Option<(string, string)>)
    ensures r.Some? <==> (|Split(text, '-')| == 2 &&
      DayMonth(Split(text, '-')[0]).Some? && DayMonth(Split(text, '-')[1]).Some?)
    ensures r.Some? ==>
      var a := DayMonth(Split(text, '-')[0]).value;
      var b := DayMonth(Split(text, '-')[1]).value;
      r.value == (IsoDate(year, a.1, a.0), IsoDate(year, b.1, b.0))
  {
    var parts := Split(text, '-');
    if |parts| != 2 then None
    else
      var checkIn :- DayMonth(parts[0]);
      var checkOut :- DayMonth(parts[1]);
      Some((IsoDate(year, checkIn.1, checkIn.0), IsoDate(year, checkOut.1, checkOut.0)))
  }

  /** Digits read back as their value. */
  lemma DigitsRead(t: string)
    requires t != [] && AllDigits(t)
    ensures PyInt(t) == Some(DigitsValue(t))
  {
    assert IsDigit(t[0]) && IsDigit(t[|t| - 1]);
    StripUnpadded(t);
  }

  /** A day and a month, each as digits, read back as their values. */
  lemma {:induction false} DayMonthOfDigits(d: string, m: string)
    requires d != [] && AllDigits(d) && m != [] && AllDigits(m)
    ensures DayMonth(d + "." + m) == Some((DigitsValue(d), DigitsValue(m)))
  {
    assert '.' !in d by { assert forall i :: 0 <= i < |d| ==> IsDigit(d[i]); }
    assert '.' !in m by { assert forall i :: 0 <= i < |m| ==> IsDigit(m[i]); }
    SplitAfterPart(d, '.', m);
    SplitNoSeparator(m, '.');
    DigitsRead(d);
    DigitsRead(m);
  }

  /**
   * Any "D.M-D.M" written in digits is read as those numbers, zero-padded,
   * whatever their range: month 13, or a check-out before the check-in,
   * pass as they are.
   */
  lemma {:induction false} ParseDigitsRange(d1: string, m1: string, d2: string, m2: string, year: int)
    requires d1 != [] && AllDigits(d1) && m1 != [] && AllDigits(m1)
    requires d2 != [] && AllDigits(d2) && m2 != [] && AllDigits(m2)
    ensures ParseDateInput(d1 + "." + m1 + "-" + d2 + "." + m2, year) ==
      Some((IsoDate(year, DigitsValue(m1), DigitsValue(d1)), IsoDate(year, DigitsValue(m2), DigitsValue(d2))))
  {
    var a, b := d1 + "." + m1, d2 + "." + m2;
    assert '-' !in a by { assert forall i :: 0 <= i < |a| ==> a[i] == '.' || IsDigit(a[i]); }
    assert '-' !in b by { assert forall i :: 0 <= i < |b| ==> b[i] == '.' || IsDigit(b[i]); }
    SplitAfterPart(a, '-', b);
    SplitNoSeparator(b, '-');
    assert a + "-" + b == d1 + "." + m1 + "-" + d2 + "." + m2;
    DayMonthOfDigits(d1, m1);
    DayMonthOfDigits(d2, m2);
  }

  lemma YearText()
    ensures IntToString(2024) == "2024"
  {
    assert DigitChar(2) == '2' && DigitChar(0) == '0' && DigitChar(4) == '4';
    assert NatToString(2) == ['2'];
    assert NatToString(20) == ['2'] + ['0'];
    assert NatToString(202) == ['2', '0'] + ['2'];
    assert NatToString(2024) == ['2', '0', '2'] + ['4'];
  }

  lemma DayTexts()
    ensures Pad2(2) == "02" && Pad2(15) == "15" && Pad2(17) == "17"
  {
    assert DigitChar(1) == '1' && DigitChar(5) == '5' && DigitChar(7) == '7' && DigitChar(2) == '2';
    assert NatToString(1) == ['1'];
    assert NatToString(15) == ['1'] + ['5'];
    assert NatToString(17) == ['1'] + ['7'];
  }

  lemma DateTexts()
    ensures IsoDate(2024, 2, 15) == "2024-02-15" && IsoDate(2024, 2, 17) == "2024-02-17"
  {
    YearText();
    DayTexts();
  }

  lemma DigitTexts()
    ensures AllDigits("15") && DigitsValue("15") == 15
    ensures AllDigits("17") && DigitsValue("17") == 17
    ensures AllDigits("02") && DigitsValue("02") == 2
  {
    assert "15"[..1] == "1" && "17"[..1] == "1" && "02"[..1] == "0";
  }

  /** "15.02-17.02" in 2024 is the stay from 2024-02-15 to 2024-02-17. */
  lemma DateRangeExample()
    ensures ParseDateInput("15.02-17.02", 2024) == Some(("2024-02-15", "2024-02-17"))
  {
    DigitTexts();
    assert "15.02-17.02" == "15" + "." + "02" + "-" + "17" + "." + "02";
    ParseDigitsRange("15", "02", "17", "02", 2024);
    DateTexts();
  }

  /** Text without "-" is no date range: "invalid" gives `None`. */
  lemma NoDashNoRange(text: string, year: int)
    requires '-' !in text
    ensures ParseDateInput(text, year) == None
  {
    SplitNoSeparator(text, '-');
  }

  lemma InvalidIsNone(year: int)
    ensures ParseDateInput("invalid", year) == None
  {
    NoDashNoRange("invalid", year);
  }
}
