/** The front end's wording of a score: the risk button and its hover hint. */
module FrontFormatting {
  import opened Text
  import opened Voting

  /** `get_sketchyLevel`: the button's CSS classes and its caption. */
  function SketchyLevel(score: real): (level: (string, string))
  {
    if score >= 0.65 then ("btn btn-danger btn-mini", "Sketchy")
    else if score <= 0.35 then ("btn btn-success btn-mini", "Seems Legit")
    else ("btn btn-warning btn-mini", "Hard to tell")
  }

  /** The order of the captions by risk. */
  function Rank(level: (string, string)): nat {
    if level.1 == "Sketchy" then 2 else if level.1 == "Hard to tell" then 1 else 0
  }

  /** Each score gets exactly one of the three labels: danger from 0.65 up,
      success up to 0.35, warning strictly between. */
  lemma SketchyLevelCases(score: real)
    ensures SketchyLevel(score).1 == "Sketchy" <==> score >= 0.65
    ensures SketchyLevel(score).1 == "Seems Legit" <==> score <= 0.35
    ensures SketchyLevel(score).1 == "Hard to tell" <==> 0.35 < score < 0.65
    ensures SketchyLevel(score).0 == "btn btn-danger btn-mini" <==> score >= 0.65
    ensures SketchyLevel(score).0 == "btn btn-success btn-mini" <==> score <= 0.35
    ensures SketchyLevel(score).0 == "btn btn-warning btn-mini" <==> 0.35 < score < 0.65
  {
  }

  /** A higher score never gets a less alarming label. */
  lemma SketchyLevelMonotone(s1: real, s2: real)
    requires s1 <= s2
    ensures Rank(SketchyLevel(s1)) <= Rank(SketchyLevel(s2))
  {
  }

  // The hover hint: five lines joined by "<br>".

  predicate StartsWith(s: string, prefix: string) {
    |prefix| <= |s| && s[..|prefix|] == prefix
  }

  predicate EndsWith(s: string, suffix: string) {
    |suffix| <= |s| && s[|s| - |suffix|..] == suffix
  }

  const Green: string := "<font color=\"green\">"
  const Red: string := "<font color=\"red\">"
  const GreaterTail: string := "%</font> greater than the median "
  const LessTail: string := "%</font> less than the median"
  const PriceCross: string := "<i class=\"icon-remove icon-white\"></i> Price"
  const CapsTail: string := "% of capital letters</font>"

  /** The indentation the source's line continuation leaves inside its literals. */
  const Indent: string := "                        "

  /** Line 1: how the price per room compares with the neighbourhood median. */
  function PriceLine(diff: real): string {
    if diff > 0.0 then Green + (IntToString(Trunc(diff * 100.0)) + GreaterTail)
    else if diff < 0.0 then Red + (IntToString(Trunc(diff * 100.0)) + LessTail)
    else PriceCross
  }

  function Icon(ok: bool): string {
    if ok then "icon-ok" else "icon-remove"
  }

  function Color(ok: bool): string {
    if ok then "green" else "red"
  }

  function IconOpen(ok: bool): string {
    "<i class=\"" + Icon(ok)
  }

  const MarkMiddle: string := " icon-white\"></i> " + Indent + "<font color=\""

  function ColorClose(ok: bool, what: string): string {
    Color(ok) + "\">" + what + "</font>"
  }

  /** Lines 2 and 3: a tick in green or a cross in red before `what`. */
  function MarkLine(ok: bool, what: string): string {
    IconOpen(ok) + (MarkMiddle + ColorClose(ok, what))
  }

  /** Line 4: the capital-letter percentage, red above 7%. */
  function CapsLine(frac: real): string {
    var pct := Trunc(frac * 100.0);
    (if pct > 7 then Red else Green) + (IntToString(pct) + CapsTail)
  }

  /** Line 5: the word count. */
  function WordsLine(n: real): string {
    IntToString(Trunc(n)) + " words"
  }

  /** `a` and `rest` joined by a `<br>` separator. */
  function JoinBr(a: string, rest: string): string {
    a + ("<br>" + rest)
  }

  /** `get_hint(feature_row)`: lines built from the last column (price
      difference), columns 0 and 1 (address and phone flags, truthy when
      non-zero), column 4 (capital fraction) and column 5 (word count). */
  function Hint(row: Row): string
    requires |row| >= 6
  {
    JoinBr(PriceLine(row[|row| - 1]),
      JoinBr(MarkLine(row[0] != 0.0, "Address"),
        JoinBr(MarkLine(row[1] != 0.0, "Phone"),
          JoinBr(CapsLine(row[4]), WordsLine(row[5])))))
  }

  // Splitting a hint back into its lines.

  predicate BrAt(s: string, i: nat) {
    i + 4 <= |s| && s[i..i + 4] == "<br>"
  }

  /** The first `<br>` at or after `i`, or `|s|` when there is none. */
  function NextBr(s: string, i: nat): (k: nat)
    requires i <= |s|
    ensures i <= k <= |s|
    ensures k < |s| ==> BrAt(s, k)
    ensures forall j :: i <= j < k ==> !BrAt(s, j)
    decreases |s| - i
  {
    if i == |s| then |s| else if BrAt(s, i) then i else NextBr(s, i + 1)
  }

  /** The pieces of `s` between `<br>` separators (Python's `s.split('<br>')`). */
  function Lines(s: string): (ls: seq<string>)
    ensures |ls| >= 1
    decreases |s|
  {
    var k := NextBr(s, 0);
    if k == |s| then [s] else [s[..k]] + Lines(s[k + 4..])
  }

  predicate NoB(s: string) {
    forall i :: 0 <= i < |s| ==> s[i] != 'b'
  }

  lemma NoBJoin(a: string, b: string)
    requires NoB(a) && NoB(b)
    ensures NoB(a + b)
  {
  }

  /** A piece without the letter b contains no separator. */
  lemma LinesSingle(a: string)
    requires NoB(a)
    ensures Lines(a) == [a]
  {
    forall j | 0 <= j < |a| ensures !BrAt(a, j) {
      if j + 4 <= |a| {
        assert a[j..j + 4][1] == a[j + 1];
      }
    }
  }

  /** No separator starts inside a piece without the letter b that is followed by one. */
  lemma NoBrBefore(a: string, rest: string, j: nat)
    requires NoB(a) && j < |a|
    ensures !BrAt(JoinBr(a, rest), j)
  {
    var s := JoinBr(a, rest);
    if j + 1 < |a| {
      assert s[j + 1] == a[j + 1];
    } else {
      assert s[j + 1] == '<';
    }
  }

  /** Joining a piece without the letter b to the rest with `<br>` adds exactly that piece in front. */
  lemma LinesJoin(a: string, rest: string)
    requires NoB(a)
    ensures Lines(JoinBr(a, rest)) == [a] + Lines(rest)
  {
    var s := JoinBr(a, rest);
    forall j | 0 <= j < |a| ensures !BrAt(s, j) {
      NoBrBefore(a, rest, j);
    }
    assert BrAt(s, |a|);
    var k := NextBr(s, 0);
    assert k == |a|;
    assert s[..k] == a;
    assert s[k + 4..] == rest;
  }

  lemma IntToStringNoB(i: int)
    ensures NoB(IntToString(i))
  {
    var s := IntToString(i);
    forall j | 0 <= j < |s| ensures s[j] != 'b' {
      if j == 0 && i < 0 {
        assert s[0] == '-';
      }
    }
  }

  lemma GreaterTailNoB()
    ensures NoB(GreaterTail)
  {
    assert GreaterTail == "%</font> greater" + " than the median ";
    NoBJoin("%</font> greater", " than the median ");
  }

  lemma LessTailNoB()
    ensures NoB(LessTail)
  {
    assert LessTail == "%</font> less" + " than the median";
    NoBJoin("%</font> less", " than the median");
  }

  lemma PriceCrossNoB()
    ensures NoB(PriceCross)
  {
    assert PriceCross == "<i class=\"icon-remove" + " icon-white\"></i> Price";
    NoBJoin("<i class=\"icon-remove", " icon-white\"></i> Price");
  }

  lemma PriceLineNoB(diff: real)
    ensures NoB(PriceLine(diff))
  {
    var digits := IntToString(Trunc(diff * 100.0));
    IntToStringNoB(Trunc(diff * 100.0));
    if diff > 0.0 {
      GreaterTailNoB();
      NoBJoin(digits, GreaterTail);
      NoBJoin(Green, digits + GreaterTail);
    } else if diff < 0.0 {
      LessTailNoB();
      NoBJoin(digits, LessTail);
      NoBJoin(Red, digits + LessTail);
    } else {
      PriceCrossNoB();
    }
  }

  lemma MarkLineNoB(ok: bool, what: string)
    requires NoB(what)
    ensures NoB(MarkLine(ok, what))
  {
    NoBJoin("<i class=\"", Icon(ok));
    NoBJoin(" icon-white\"></i> ", Indent);
    NoBJoin(" icon-white\"></i> " + Indent, "<font color=\"");
    NoBJoin(Color(ok), "\">");
    NoBJoin(Color(ok) + "\">", what);
    NoBJoin(Color(ok) + "\">" + what, "</font>");
    NoBJoin(MarkMiddle, ColorClose(ok, what));
    NoBJoin(IconOpen(ok), MarkMiddle + ColorClose(ok, what));
  }

  lemma CapsLineNoB(frac: real)
    ensures NoB(CapsLine(frac))
  {
    var pct := Trunc(frac * 100.0);
    IntToStringNoB(pct);
    assert CapsTail == "% of capital" + " letters</font>";
    NoBJoin("% of capital", " letters</font>");
    NoBJoin(IntToString(pct), CapsTail);
    NoBJoin(if pct > 7 then Red else Green, IntToString(pct) + CapsTail);
  }

  lemma WordsLineNoB(n: real)
    ensures NoB(WordsLine(n))
  {
    IntToStringNoB(Trunc(n));
    NoBJoin(IntToString(Trunc(n)), " words");
  }

  /** Five pieces without the letter b joined by `<br>` split back into those pieces. */
  lemma LinesOfFive(p: string, a: string, ph: string, c: string, w: string)
    requires NoB(p) && NoB(a) && NoB(ph) && NoB(c) && NoB(w)
    ensures Lines(JoinBr(p, JoinBr(a, JoinBr(ph, JoinBr(c, w))))) == [p, a, ph, c, w]
  {
    LinesSingle(w);
    LinesJoin(c, w);
    LinesJoin(ph, JoinBr(c, w));
    LinesJoin(a, JoinBr(ph, JoinBr(c, w)));
    LinesJoin(p, JoinBr(a, JoinBr(ph, JoinBr(c, w))));
  }

  /** The hint splits at `<br>` into exactly its five lines, in order: the
      price line, the Address mark, the Phone mark, the capital-letter line
      and the word count. So it holds exactly four separators. */
  lemma HintLines(row: Row)
    requires |row| >= 6
    ensures Lines(Hint(row)) == [PriceLine(row[|row| - 1]), MarkLine(row[0] != 0.0, "Address"),
                                 MarkLine(row[1] != 0.0, "Phone"), CapsLine(row[4]), WordsLine(row[5])]
    ensures |Lines(Hint(row))| == 5
  {
    PriceLineNoB(row[|row| - 1]);
    MarkLineNoB(row[0] != 0.0, "Address");
    MarkLineNoB(row[1] != 0.0, "Phone");
    CapsLineNoB(row[4]);
    WordsLineNoB(row[5]);
    LinesOfFive(PriceLine(row[|row| - 1]), MarkLine(row[0] != 0.0, "Address"),
                MarkLine(row[1] != 0.0, "Phone"), CapsLine(row[4]), WordsLine(row[5]));
  }

  lemma PrefixOfJoin(p: string, rest: string)
    ensures StartsWith(p + rest, p)
  {
  }

  lemma SuffixOfJoin(rest: string, q: string)
    ensures EndsWith(rest + q, q)
  {
  }

  lemma SuffixExtend(a: string, rest: string, q: string)
    requires EndsWith(rest, q)
    ensures EndsWith(a + rest, q)
  {
    assert (a + rest)[|a + rest| - |q|..] == rest[|rest| - |q|..];
  }

  lemma LastOfFive(p: string, a: string, ph: string, c: string, w: string)
    ensures EndsWith(JoinBr(p, JoinBr(a, JoinBr(ph, JoinBr(c, w)))), "<br>" + w)
  {
    SuffixOfJoin(c, "<br>" + w);
    SuffixExtend(ph, "<br>" + JoinBr(c, w), "<br>" + w);
    SuffixExtend(a, "<br>" + JoinBr(ph, JoinBr(c, w)), "<br>" + w);
    SuffixExtend(p, "<br>" + JoinBr(a, JoinBr(ph, JoinBr(c, w))), "<br>" + w);
  }

  /** The hint ends with the `<br>`-separated word count `int(feature_row[5])`. */
  lemma HintEndsWithWords(row: Row)
    requires |row| >= 6
    ensures EndsWith(Hint(row), "<br>" + IntToString(Trunc(row[5])) + " words")
  {
    LastOfFive(PriceLine(row[|row| - 1]), MarkLine(row[0] != 0.0, "Address"),
               MarkLine(row[1] != 0.0, "Phone"), CapsLine(row[4]), WordsLine(row[5]));
    assert "<br>" + WordsLine(row[5]) == "<br>" + IntToString(Trunc(row[5])) + " words";
  }

  /** A string that differs from `p` at one of `p`'s positions does not start with `p`. */
  lemma DifferAt(s: string, p: string, i: nat)
    requires i < |p| && i < |s| && s[i] != p[i]
    ensures !StartsWith(s, p)
  {
    if |p| <= |s| {
      assert s[..|p|][i] == s[i];
    }
  }

  /** The first line is green and says "greater" exactly when the price
      difference is positive, red and "less" exactly when it is negative, and
      the Price cross exactly when it is zero. */
  lemma PriceLineCases(diff: real)
    ensures StartsWith(PriceLine(diff), Green) <==> diff > 0.0
    ensures StartsWith(PriceLine(diff), Red) <==> diff < 0.0
    ensures PriceLine(diff) == PriceCross <==> diff == 0.0
    ensures diff > 0.0 ==> EndsWith(PriceLine(diff), GreaterTail)
    ensures diff < 0.0 ==> EndsWith(PriceLine(diff), LessTail)
  {
    var digits := IntToString(Trunc(diff * 100.0));
    var line := PriceLine(diff);
    if diff > 0.0 {
      PrefixOfJoin(Green, digits + GreaterTail);
      assert line[13] == Green[13] == 'g';
      DifferAt(line, Red, 13);
      assert line[1] == 'f' != PriceCross[1];
      SuffixOfJoin(digits, GreaterTail);
      SuffixExtend(Green, digits + GreaterTail, GreaterTail);
    } else if diff < 0.0 {
      PrefixOfJoin(Red, digits + LessTail);
      assert line[13] == Red[13] == 'r';
      DifferAt(line, Green, 13);
      assert line[1] == 'f' != PriceCross[1];
      SuffixOfJoin(digits, LessTail);
      SuffixExtend(Red, digits + LessTail, LessTail);
    } else {
      assert line[1] == 'i';
      DifferAt(line, Red, 1);
      DifferAt(line, Green, 1);
    }
  }

  lemma MarkLineEnds(ok: bool, what: string)
    ensures EndsWith(MarkLine(ok, what), ColorClose(ok, what))
  {
    SuffixOfJoin(MarkMiddle, ColorClose(ok, what));
    SuffixExtend(IconOpen(ok), MarkMiddle + ColorClose(ok, what), ColorClose(ok, what));
  }

  lemma MarkLineStarts(ok: bool, what: string)
    ensures StartsWith(MarkLine(ok, what), IconOpen(ok))
    ensures MarkLine(ok, what)[15] == if ok then 'o' else 'r'
  {
    PrefixOfJoin(IconOpen(ok), MarkMiddle + ColorClose(ok, what));
    assert MarkLine(ok, what)[15] == IconOpen(ok)[15];
  }

  /** A mark line carries the tick icon exactly when its flag is set, and
      ends with its subject in green when set and in red otherwise. */
  lemma MarkLineCases(ok: bool, what: string)
    ensures StartsWith(MarkLine(ok, what), "<i class=\"icon-ok") <==> ok
    ensures StartsWith(MarkLine(ok, what), "<i class=\"icon-remove") <==> !ok
    ensures ok ==> EndsWith(MarkLine(ok, what), "green\">" + what + "</font>")
    ensures !ok ==> EndsWith(MarkLine(ok, what), "red\">" + what + "</font>")
  {
    MarkLineIcon(ok, what);
    MarkLineColor(ok, what);
  }

  lemma MarkLineIcon(ok: bool, what: string)
    ensures StartsWith(MarkLine(ok, what), "<i class=\"icon-ok") <==> ok
    ensures StartsWith(MarkLine(ok, what), "<i class=\"icon-remove") <==> !ok
  {
    MarkLineStarts(ok, what);
    if ok {
      assert IconOpen(ok) == "<i class=\"icon-ok";
      DifferAt(MarkLine(ok, what), "<i class=\"icon-remove", 15);
    } else {
      assert IconOpen(ok) == "<i class=\"icon-remove";
      DifferAt(MarkLine(ok, what), "<i class=\"icon-ok", 15);
    }
  }

  lemma MarkLineColor(ok: bool, what: string)
    ensures ok ==> EndsWith(MarkLine(ok, what), "green\">" + what + "</font>")
    ensures !ok ==> EndsWith(MarkLine(ok, what), "red\">" + what + "</font>")
  {
    MarkLineEnds(ok, what);
    if ok {
      assert Color(ok) + "\">" == "green\">";
    } else {
      assert Color(ok) + "\">" == "red\">";
    }
  }

  /** The capital-letter line is red exactly when `int(100 * fraction)` exceeds 7. */
  lemma CapsLineCases(frac: real)
    ensures StartsWith(CapsLine(frac), Red) <==> Trunc(frac * 100.0) > 7
    ensures StartsWith(CapsLine(frac), Green) <==> Trunc(frac * 100.0) <= 7
    ensures EndsWith(CapsLine(frac), CapsTail)
  {
    var pct := Trunc(frac * 100.0);
    var line := CapsLine(frac);
    var digits := IntToString(pct);
    var open := if pct > 7 then Red else Green;
    PrefixOfJoin(open, digits + CapsTail);
    SuffixOfJoin(digits, CapsTail);
    SuffixExtend(open, digits + CapsTail, CapsTail);
    if pct <= 7 {
      assert line[13] == Green[13] == 'g';
      DifferAt(line, Red, 13);
    } else {
      assert line[13] == Red[13] == 'r';
      DifferAt(line, Green, 13);
    }
  }
}
