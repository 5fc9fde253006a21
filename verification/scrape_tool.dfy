/** The record-building helpers of the Craigslist scraper: the list of index
    pages to visit, the time stamp of the dump file name, the clean-up of a
    post body and the listing record. */
module Scraping {
  import opened Wrappers
  import opened Sequences
  import opened Text
  import opened Listings
  import opened RegexSubs

  /** The index page that starts at listing `offset`. */
  function PageName(offset: nat): string {
    "index" + NatToString(offset) + ".html"
  }

  /** Reads the offset back from an index page name. */
  function PageOffset(name: string): Option<nat> {
    if |name| >= 10 && name[..5] == "index" && name[|name| - 5..] == ".html" && AllDigits(name[5..|name| - 5])
    then Some(ParseNat(name[5..|name| - 5]))
    else None
  }

  /** Every index page name gives back its offset. */
  lemma PageNameRoundTrip(offset: nat)
    ensures PageOffset(PageName(offset)) == Some(offset)
  {
    var name := PageName(offset);
    var digits := NatToString(offset);
    assert name[..5] == "index";
    assert name[|name| - 5..] == ".html";
    assert name[5..|name| - 5] == digits;
    ParseNatToString(offset);
  }

  /** `'%s' % str(value)` with a leading zero added below 10. */
  function AddZeros(value: int): string {
    var valueStr := IntToString(value);
    if value < 10 then "0" + valueStr else valueStr
  }

  lemma NatToStringShort(n: nat)
    ensures n < 10 ==> |NatToString(n)| == 1
    ensures 10 <= n < 100 ==> |NatToString(n)| == 2
    ensures 1000 <= n < 10000 ==> |NatToString(n)| == 4
  {
    if n >= 10 {
      NatToStringShort(n / 10);
    }
  }

  /** A two-digit field: digits only, reading back as the value. */
  lemma AddZerosRoundTrip(value: int)
    requires 0 <= value < 100
    ensures |AddZeros(value)| == 2 && AllDigits(AddZeros(value))
    ensures ParseNat(AddZeros(value)) == value
  {
    NatToStringShort(value);
    ParseNatToString(value);
    if value < 10 {
      ParseNatLeadingZero(NatToString(value));
    }
  }

  /** `_get_time_stamp` from the clock's year, month, day, hour and minute. */
  function TimeStamp(yr: int, mo: int, dy: int, hr: int, mn: int): string {
    "_" + IntToString(yr) + AddZeros(mo) + AddZeros(dy) + "-" + AddZeros(hr) + AddZeros(mn)
  }

  /** Where the pieces of a stamp sit, given their widths. */
  lemma StampFields(y: string, a: string, b: string, c: string, d: string)
    requires |y| == 4 && |a| == 2 && |b| == 2 && |c| == 2 && |d| == 2
    ensures var ts := "_" + y + a + b + "-" + c + d;
      && |ts| == 14 && ts[0] == '_' && ts[9] == '-'
      && ts[1..5] == y && ts[5..7] == a && ts[7..9] == b && ts[10..12] == c && ts[12..14] == d
  {
  }

  /** For a four-digit year and clock fields below 100 the stamp is
      `_YYYYMMDD-hhmm`: fourteen characters, the year in positions 1-4, then
      month and day, a dash, hour and minute, each field two digits wide and
      reading back as its input. */
  lemma TimeStampShape(yr: int, mo: int, dy: int, hr: int, mn: int)
    requires 1000 <= yr < 10000
    requires 0 <= mo < 100 && 0 <= dy < 100 && 0 <= hr < 100 && 0 <= mn < 100
    ensures var ts := TimeStamp(yr, mo, dy, hr, mn);
      && |ts| == 14 && ts[0] == '_' && ts[9] == '-'
      && ts[1..5] == IntToString(yr) && ts[5..7] == AddZeros(mo) && ts[7..9] == AddZeros(dy)
      && ts[10..12] == AddZeros(hr) && ts[12..14] == AddZeros(mn)
    ensures AllDigits(IntToString(yr)) && ParseNat(IntToString(yr)) == yr
    ensures AllDigits(AddZeros(mo)) && ParseNat(AddZeros(mo)) == mo
    ensures AllDigits(AddZeros(dy)) && ParseNat(AddZeros(dy)) == dy
    ensures AllDigits(AddZeros(hr)) && ParseNat(AddZeros(hr)) == hr
    ensures AllDigits(AddZeros(mn)) && ParseNat(AddZeros(mn)) == mn
  {
    YearRoundTrip(yr);
    AddZerosRoundTrip(mo);
    AddZerosRoundTrip(dy);
    AddZerosRoundTrip(hr);
    AddZerosRoundTrip(mn);
    var y, a, b, c, d := IntToString(yr), AddZeros(mo), AddZeros(dy), AddZeros(hr), AddZeros(mn);
    assert TimeStamp(yr, mo, dy, hr, mn) == "_" + y + a + b + "-" + c + d;
    StampFields(y, a, b, c, d);
  }

  lemma YearRoundTrip(yr: int)
    requires 1000 <= yr < 10000
    ensures |IntToString(yr)| == 4 && AllDigits(IntToString(yr)) && ParseNat(IntToString(yr)) == yr
  {
    NatToStringShort(yr);
    ParseNatToString(yr);
  }

  /** `_clean_text` on the `postingbody` sections found: the text nodes of the
      first section joined by spaces, tabs and newlines turned to spaces,
      whitespace runs collapsed, quotes removed. No section gives `' '`. */
  function CleanText(sections: seq<seq<string>>): string {
    if |sections| > 0 then
      var joined := JoinWith(sections[0], " ");
      Remove(Remove(Collapse(BlankTabsNewlines(joined), IsReSpace), '\''), '"')
    else " "
  }

  /** A cleaned body holds no tab, newline, quote or other ASCII `\s` character
      except the plain space. */
  lemma CleanTextCharacters(sections: seq<seq<string>>)
    ensures var r := CleanText(sections);
      forall c :: c in r ==> c != '\n' && c != '\t' && c != '\'' && c != '"' && (IsReSpace(c) ==> c == ' ')
  {
    if |sections| > 0 {
      var collapsed := Collapse(BlankTabsNewlines(JoinWith(sections[0], " ")), IsReSpace);
      forall c | c in collapsed ensures IsReSpace(c) ==> c == ' ' {
        var i :| 0 <= i < |collapsed| && collapsed[i] == c;
      }
    }
  }

  /** Every other character of the first section's text survives cleaning,
      and nothing else appears. */
  lemma CleanTextKeepsText(sections: seq<seq<string>>, c: char)
    requires !IsReSpace(c) && c != '\'' && c != '"'
    ensures c in CleanText(sections) <==> |sections| > 0 && c in JoinWith(sections[0], " ")
    ensures sections == [] ==> CleanText(sections) == " "
  {
    if |sections| > 0 {
      var blanked := BlankTabsNewlines(JoinWith(sections[0], " "));
      BlankKeeps(JoinWith(sections[0], " "), c);
      CollapseMembers(blanked, IsReSpace, c);
    }
  }

  /** Quotes are removed after runs are collapsed, so the spaces around a
      removed quote end up side by side. */
  lemma CleanTextDoubleSpace()
    ensures CleanText([["a ' b"]]) == "a  b"
  {
    var s := "a ' b";
    assert JoinWith([s], " ") == s;
    assert BlankTabsNewlines(s) == s;
    CollapseQuoteExample(IsReSpace);
    RemoveQuoteExample();
    RemoveDoubleQuoteExample();
  }

  /** `_extract_phone_number`: the digits of the first phone-number match
      (`firstMatch`, found by a regular expression this model does not
      cover), or -1 when there is none or the text has no word at all. */
  function ExtractPhoneNumber(text: string, firstMatch: Option<nat>): (phone: int)
    ensures WordCount(text) == 0 ==> phone == -1
    ensures firstMatch.None? ==> phone == -1
    ensures WordCount(text) > 0 && firstMatch.Some? ==> phone == firstMatch.value
    ensures phone != -1 ==> phone >= 0
  {
    if WordCount(text) > 0 then
      match firstMatch
      case Some(digits) => digits
      case None => -1
    else -1
  }

  /** `_store_listing`: the record of one listing. */
  function StoreListing(info: ListingInfo, link: string, phone: int, text: string): (l: Listing)
    ensures l.pid == info.pid && l.head == info.head && l.lon == info.lon && l.lat == info.lat
    ensures l.price == info.price && l.nbr == info.nbr && l.phone == phone && l.link == link
    ensures l.hasPost == 1 <==> WordCount(text) > 0
    ensures l.hasPost == 0 <==> l.post == []
    ensures l.hasPost == 0 || l.hasPost == 1
    ensures l.hasPost == 1 ==> l.post == text
  {
    if WordCount(text) > 0 then
      Listing(info.pid, info.head, info.lon, info.lat, info.price, info.nbr, phone, link, text, 1)
    else
      Listing(info.pid, info.head, info.lon, info.lat, info.price, info.nbr, phone, link, "", 0)
  }

  /** The number of index pages for a requested listing count: n rounded
      down to a multiple of 100, one page per hundred, plus the front page. */
  function PageCount(n: int): nat {
    if n < 0 then 1 else n / 100 + 1
  }

  class ScrapeTool {
    var urlRoot: string
    var postingLvlList: seq<string>
    var listingPristine: seq<Listing>

    /** `__init__(n)`: the front page, then one index page per full hundred of n. */
    constructor (n: int)
      ensures |postingLvlList| == PageCount(n)
      ensures postingLvlList[0] == ""
      ensures forall k :: 1 <= k < |postingLvlList| ==> postingLvlList[k] == PageName(100 * k)
      ensures listingPristine == []
      ensures urlRoot == "http://sfbay.craigslist.org"
    {
      var m := n - n % 100;
      var levels := [""];
      var i := 100;
      while i <= m
        invariant 100 <= i && i == 100 * |levels|
        invariant m >= 0 ==> i <= m + 100
        invariant m < 100 ==> |levels| == 1
        invariant levels[0] == ""
        invariant forall k :: 1 <= k < |levels| ==> levels[k] == PageName(100 * k)
        decreases m - i
      {
        levels := levels + [PageName(i)];
        i := i + 100;
      }
      assert m % 100 == 0 && (m >= 0 <==> n >= 0);
      if n < 0 {
        assert |levels| == 1;
      } else {
        assert i == m + 100;
        assert m == 100 * (m / 100);
        assert |levels| == m / 100 + 1;
        assert m / 100 == n / 100;
      }
      urlRoot := "http://sfbay.craigslist.org";
      postingLvlList := levels;
      listingPristine := [];
    }
  }
}
