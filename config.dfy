/**
 * Application settings. The environment is read elsewhere; a `Settings`
 * value is what it produced. The payout percent is kept in hundredths of a
 * percent (basis points), so the default 5.0 percent is 500.
 */
module Config {
  import opened Wrappers
  import opened Text

  const DefaultAttributionWindowDays: int := 30
  const DefaultPayoutMode: string := "fixed"
  const DefaultPayoutFixed: int := 500
  const DefaultPayoutPercentBasisPoints: int := 500
  const DefaultBookingTagParam: string := "tag"

  datatype Settings = Settings(
    adminTgIds: string,
    managerTgIds: string,
    basePublicUrl: string,
    tgWebhookPath: string,
    bookingBaseUrl: string,
    bookingTagParam: string,
    webhookSecret: string,
    attributionWindowDays: int,
    refPayoutMode: string,
    refPayoutFixed: int,
    refPayoutPercentBasisPoints: int)

  /** Settings built from the required values only, every other field at its default. */
  function WithDefaults(adminTgIds: string, basePublicUrl: string, tgWebhookPath: string,
                        bookingBaseUrl: string, webhookSecret: string): (s: Settings)
    ensures s.managerTgIds == "" && s.bookingTagParam == "tag"
    ensures s.attributionWindowDays == 30 && s.refPayoutMode == "fixed"
    ensures s.refPayoutFixed == 500 && s.refPayoutPercentBasisPoints == 500
  {
    Settings(adminTgIds, "", basePublicUrl, tgWebhookPath, bookingBaseUrl, DefaultBookingTagParam,
             webhookSecret, DefaultAttributionWindowDays, DefaultPayoutMode, DefaultPayoutFixed,
             DefaultPayoutPercentBasisPoints)
  }

  /**
   * `[int(x.strip()) for x in parts if x.strip()]`: blank entries are skipped;
   * one entry that is not an integer makes the whole list fail (`None`).
   */
  function ParseIdList(parts: seq<string>): (r: Option<seq<int>>)
    ensures r.Some? ==> |r.value| <= |parts|
    decreases |parts|
  {
    if parts == [] then Some([])
    else
      var t := Strip(parts[0]);
      var rest :- ParseIdList(parts[1..]);
      if t == [] then Some(rest)
      else
        var v :- ParseInt(t);
        Some([v] + rest)
  }

  /** `Settings.admin_ids`: the comma-separated list of admin ids. */
  function AdminIds(s: Settings): Option<seq<int>> {
    ParseIdList(Split(s.adminTgIds, ','))
  }

  /** `Settings.manager_ids`: like `admin_ids`, with an explicit empty list for an empty string. */
  function ManagerIds(s: Settings): Option<seq<int>> {
    if s.managerTgIds == "" then Some([]) else ParseIdList(Split(s.managerTgIds, ','))
  }

  /** The separate empty-string case of `manager_ids` agrees with the general rule. */
  lemma ManagerIdsGeneralRule(s: Settings)
    ensures ManagerIds(s) == ParseIdList(Split(s.managerTgIds, ','))
  {
    if s.managerTgIds == "" {
      assert Split("", ',') == [""];
      assert Strip("") == [];
    }
  }

  /** The text `",".join(str(i) for i in ids)`. */
  function IdListText(ids: seq<int>): string {
    Join(IntTexts(ids), ",")
  }

  function IntTexts(ids: seq<int>): (r: seq<string>)
    ensures |r| == |ids|
    ensures forall i :: 0 <= i < |ids| ==> r[i] == IntToString(ids[i])
  {
    seq(|ids|, i requires 0 <= i < |ids| => IntToString(ids[i]))
  }

  lemma IntToStringPlain(i: int)
    ensures ',' !in IntToString(i)
    ensures Strip(IntToString(i)) == IntToString(i)
  {
    var t := IntToString(i);
    assert forall k :: 0 <= k < |t| ==> t[k] == '-' || IsDigit(t[k]);
    assert !IsSpace(t[0]);
    assert LeadingSpaces(t) == 0;
    assert t[..|t| - TrailingSpaces(t)] == t;
  }

  lemma {:induction false} ParseIdListTexts(ids: seq<int>)
    ensures ParseIdList(IntTexts(ids)) == Some(ids)
    decreases |ids|
  {
    if ids != [] {
      IntToStringPlain(ids[0]);
      ParseIntToString(ids[0]);
      assert IntTexts(ids)[1..] == IntTexts(ids[1..]);
      ParseIdListTexts(ids[1..]);
      assert [ids[0]] + ids[1..] == ids;
    }
  }

  /** Writing a list of ids as comma-separated text and reading it back as `admin_ids` gives the list. */
  lemma AdminIdsRoundTrip(s: Settings, ids: seq<int>)
    requires s.adminTgIds == IdListText(ids)
    ensures AdminIds(s) == Some(ids)
  {
    if ids == [] {
      assert IntTexts([]) == [];
      assert IdListText([]) == "";
      assert Split("", ',') == [""];
      assert Strip("") == [];
      assert ParseIdList([""]) == ParseIdList([]);
    } else {
      forall i | 0 <= i < |IntTexts(ids)| ensures ',' !in IntTexts(ids)[i] {
        IntToStringPlain(ids[i]);
      }
      SplitJoin(IntTexts(ids), ',');
      ParseIdListTexts(ids);
    }
  }

  /** One non-blank entry in front of the rest of the list. */
  lemma ParseIdListCons(p: string, parts: seq<string>, v: int)
    requires ParseInt(Strip(p)) == Some(v)
    ensures ParseIdList([p] + parts) == if ParseIdList(parts).Some? then Some([v] + ParseIdList(parts).value) else None
  {
    assert ([p] + parts)[1..] == parts;
  }

  /** Whitespace in front of an entry is ignored. */
  lemma LeadingSpaceIgnored(c: char, p: string, parts: seq<string>)
    requires IsSpace(c)
    ensures ParseIdList([[c] + p] + parts) == ParseIdList([p] + parts)
  {
    StripLeadingSpace([c] + p);
    assert ([c] + p)[1..] == p;
    assert ([[c] + p] + parts)[1..] == parts == ([p] + parts)[1..];
  }

  /** An entry made of whitespace only is skipped. */
  lemma BlankEntrySkipped(p: string, parts: seq<string>)
    requires forall i :: 0 <= i < |p| ==> IsSpace(p[i])
    ensures ParseIdList([p] + parts) == ParseIdList(parts)
  {
    assert ([p] + parts)[1..] == parts;
  }

  /** A non-blank entry that is not an integer makes the whole list fail. */
  lemma BadEntryFails(p: string, parts: seq<string>)
    requires Strip(p) != [] && ParseInt(Strip(p)).None?
    ensures ParseIdList([p] + parts) == None
  {
    assert ([p] + parts)[1..] == parts;
  }

  lemma BlankEntriesSplit()
    ensures Split(" ,5,", ',') == [" ", "5", ""]
  {
    SplitAfterPart(" ", ',', "5,");
    SplitAfterPart("5", ',', "");
    assert " " + [','] + ("5" + [','] + "") == " ,5,";
    assert Split("", ',') == [""];
  }

  lemma BlankEntriesParse()
    ensures ParseIdList([" ", "5", ""]) == Some([5])
  {
    assert Strip(" ") == "" by { assert LeadingSpaces(" ") == 1; }
    assert Strip("5") == "5" by { assert LeadingSpaces("5") == 0; assert TrailingSpaces("5") == 0; }
    assert DigitsValue("5") == 5 by { assert "5"[..0] == ""; }
    assert ParseInt("5") == Some(5);
    assert ParseIdList([""]) == Some([]) by { assert Strip("") == ""; assert [""][1..] == []; }
    ParseIdListCons("5", [""], 5);
    assert ["5"] + [""] == ["5", ""] && [5] + [] == [5];
    assert [" ", "5", ""][1..] == ["5", ""];
  }

  /** Blank entries are skipped. */
  lemma IdListBlanks()
    ensures ParseIdList(Split(" ,5,", ',')) == Some([5])
  {
    BlankEntriesSplit();
    BlankEntriesParse();
  }

  /** One entry that is not a number makes the property fail. */
  lemma IdListNotANumber()
    ensures ParseIdList(Split("1,x", ',')) == None
  {
    SplitAfterPart("1", ',', "x");
    SplitNoSeparator("x", ',');
    assert "1" + [','] + "x" == "1,x";
    assert Strip("x") == "x" by { assert LeadingSpaces("x") == 0; assert TrailingSpaces("x") == 0; }
    assert ParseInt("x") == None;
  }

  /** `Settings.webhook_url`: the public base URL followed by the Telegram webhook path. */
  function WebhookUrl(s: Settings): (url: string)
    ensures |url| == |s.basePublicUrl| + |s.tgWebhookPath|
    ensures url[..|s.basePublicUrl|] == s.basePublicUrl && url[|s.basePublicUrl|..] == s.tgWebhookPath
  {
    s.basePublicUrl + s.tgWebhookPath
  }
}
