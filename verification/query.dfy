/** The field helpers of the Craigslist `Query` object: cleaning of a post
    body and reading the location, bedroom count and price of a listing row,
    each with `-1` standing for a missing value. The same helpers appear a
    second time as `Metric`'s `clean_text` and `check_*`. */
module Query {
  import opened Wrappers
  import opened Sequences
  import opened Text
  import opened RegexSubs

  /** The body after joining the text nodes with spaces, turning tabs and
      newlines into spaces and collapsing runs of spaces (`' +'`), before
      the quotes go. At this point no two spaces are adjacent. */
  function Collapsed(texts: seq<string>): (r: string)
    ensures forall i :: 0 <= i < |r| - 1 ==> !(r[i] == ' ' && r[i + 1] == ' ')
  {
    Collapse(BlankTabsNewlines(JoinWith(texts, " ")), IsBlank)
  }

  /** `_clean_text` on the text nodes of a post body. */
  function CleanText(texts: seq<string>): string {
    Remove(Remove(Collapsed(texts), '\''), '"')
  }

  /** A cleaned body holds no tab, newline or quote. */
  lemma CleanTextCharacters(texts: seq<string>)
    ensures forall c :: c in CleanText(texts) ==> c != '\n' && c != '\t' && c != '\'' && c != '"'
  {
    var blanked := BlankTabsNewlines(JoinWith(texts, " "));
    forall c | c in CleanText(texts) ensures c != '\n' && c != '\t' {
      CollapseMembers(blanked, IsBlank, c);
      if c in blanked {
        var i :| 0 <= i < |blanked| && blanked[i] == c;
      }
    }
  }

  /** Every character other than the space, tab, newline and quotes is in
      the cleaned body exactly when it is in the joined text nodes. */
  lemma CleanTextKeepsText(texts: seq<string>, c: char)
    requires c != ' ' && !IsTabOrNewline(c) && c != '\'' && c != '"'
    ensures c in CleanText(texts) <==> c in JoinWith(texts, " ")
  {
    BlankKeeps(JoinWith(texts, " "), c);
    CollapseMembers(BlankTabsNewlines(JoinWith(texts, " ")), IsBlank, c);
  }

  /** The quotes go after the space runs are collapsed, so the spaces on
      either side of a quote end up adjacent in the cleaned body. */
  lemma CleanTextDoubleSpace()
    ensures CleanText(["a ' b"]) == "a  b"
    ensures Collapsed(["a ' b"]) == "a ' b"
  {
    var s := "a ' b";
    assert JoinWith([s], " ") == s;
    assert BlankTabsNewlines(s) == s;
    CollapseQuoteExample(IsBlank);
    RemoveQuoteExample();
    RemoveDoubleQuoteExample();
  }

  /** `_check_loc`: the longitude and latitude of a listing row when it has
      both attributes, otherwise `(-1, -1)`. An attribute is `None` when the
      row does not carry it. */
  function CheckLoc(lon: Option<real>, lat: Option<real>): (r: (real, real))
    ensures lon.Some? && lat.Some? ==> r == (lon.value, lat.value)
    ensures lon.None? || lat.None? ==> r == (-1.0, -1.0)
  {
    if lon.Some? && lat.Some? then (lon.value, lat.value) else (-1.0, -1.0)
  }

  /** What `' / [0-9]br - '` matches: a slash, one digit and `br`. */
  predicate NbrMatch(m: string) {
    |m| == 9 && m[..3] == " / " && IsDigit(m[3]) && m[4..] == "br - "
  }

  /** The class `[ /a-z-]`. */
  predicate NbrNoise(c: char) {
    c == ' ' || c == '/' || 'a' <= c <= 'z' || c == '-'
  }

  /** `_check_nbr`: the bedroom count read from the matched text, or -1 when
      the row has no match. All characters of the class `[ /a-z-]` are
      dropped and the rest is read as a number. */
  function CheckNbr(m: Option<string>): (nbr: int)
    requires m.Some? ==> NbrMatch(m.value)
    ensures m.None? <==> nbr == -1
    ensures m.Some? ==> 0 <= nbr <= 9 && DigitChar(nbr) == m.value[3]
  {
    match m
    case None => -1
    case Some(s) =>
      var digits := Filter(s, Not(NbrNoise));
      NbrDigit(s);
      ParseDigit(s[3]);
      ParseNat(digits)
  }

  /** Dropping the noise from a bedroom match leaves its one digit. */
  lemma NbrDigit(s: string)
    requires NbrMatch(s)
    ensures Filter(s, Not(NbrNoise)) == [s[3]]
  {
    assert s == s[..3] + [s[3]] + s[4..];
    FilterAppend(s[..3] + [s[3]], s[4..], Not(NbrNoise));
    FilterAppend(s[..3], [s[3]], Not(NbrNoise));
    FilterAll(s[..3], Not(NbrNoise));
    FilterAll(s[4..], Not(NbrNoise));
    FilterAll([s[3]], Not(NbrNoise));
  }

  /** What `'\$\d+'` matches: a dollar sign and at least one digit. */
  predicate PriceMatch(m: string) {
    |m| >= 2 && m[0] == '$' && AllDigits(m[1..])
  }

  /** `_check_prc`: the price read from the matched text with its dollar sign
      removed, or -1 when the row has no match. */
  function CheckPrc(m: Option<string>): (price: real)
    requires m.Some? ==> PriceMatch(m.value)
    ensures m.None? <==> price == -1.0
    ensures m.Some? ==> price >= 0.0
  {
    match m
    case None => -1.0
    case Some(s) =>
      PriceDigits(s);
      ParseNat(Remove(s, '$')) as real
  }

  /** Removing the dollar sign from a price match leaves its digits. */
  lemma PriceDigits(s: string)
    requires PriceMatch(s)
    ensures Remove(s, '$') == s[1..]
  {
    assert s == [s[0]] + s[1..];
    FilterAppend([s[0]], s[1..], Other('$'));
    FilterAll([s[0]], Other('$'));
    FilterAll(s[1..], Other('$'));
  }

  /** A price written as `$` and its decimal digits reads back as itself. */
  lemma CheckPrcRoundTrip(n: nat)
    ensures PriceMatch("$" + NatToString(n))
    ensures CheckPrc(Some("$" + NatToString(n))) == n as real
  {
    var s := "$" + NatToString(n);
    assert s[1..] == NatToString(n);
    PriceDigits(s);
    ParseNatToString(n);
  }

  /** Every bedroom count from 0 to 9 written as a match reads back. */
  lemma CheckNbrRoundTrip(n: nat)
    requires n <= 9
    ensures NbrMatch(" / " + [DigitChar(n)] + "br - ")
    ensures CheckNbr(Some(" / " + [DigitChar(n)] + "br - ")) == n
  {
    var s := " / " + [DigitChar(n)] + "br - ";
    assert s[..3] == " / " && s[3] == DigitChar(n) && s[4..] == "br - ";
  }
}
