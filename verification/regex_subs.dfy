/** The string substitutions both `_clean_text` helpers chain together:
    `' '.join`, `re.sub('\n|\t', ' ', s)`, the collapse of whitespace runs
    (`re.sub('\s+', ' ', s)` or `re.sub(' +', ' ', s)`), and the removal of
    one character (`re.sub("'", '', s)`). */
module RegexSubs {
  import opened Sequences

  /** `sep.join(parts)`. */
  function JoinWith(parts: seq<string>, sep: string): string {
    if parts == [] then []
    else if |parts| == 1 then parts[0]
    else JoinWith(parts[..|parts| - 1], sep) + sep + parts[|parts| - 1]
  }

  predicate IsTabOrNewline(c: char) {
    c == '\n' || c == '\t'
  }

  /** `re.sub('\n|\t', ' ', s)`: every newline and tab becomes a space. */
  function BlankTabsNewlines(s: string): (r: string)
    ensures |r| == |s|
    ensures forall i :: 0 <= i < |r| ==> !IsTabOrNewline(r[i])
    ensures forall i :: 0 <= i < |s| ==> !IsTabOrNewline(s[i]) ==> r[i] == s[i]
    ensures forall i :: 0 <= i < |s| ==> IsTabOrNewline(s[i]) ==> r[i] == ' '
  {
    seq(|s|, i requires 0 <= i < |s| => if IsTabOrNewline(s[i]) then ' ' else s[i])
  }

  /** What the `\s` class of Python 2's `re` matches without the UNICODE
      flag: space, tab, newline, carriage return, form feed, vertical tab. */
  predicate IsReSpace(c: char) {
    c == ' ' || 0x09 <= c as int <= 0x0D
  }

  /** The class of `' +'`: the space alone. */
  predicate IsBlank(c: char) {
    c == ' '
  }

  /** Negation of a character class. */
  function Not(cls: char -> bool): char -> bool {
    c => !cls(c)
  }

  /** `re.sub(cls + '+', ' ', s)`: every maximal run of `cls` characters
      becomes one space. The result keeps no `cls` character other than the
      space and never two in a row. */
  function Collapse(s: string, cls: char -> bool): (r: string)
    requires cls(' ')
    ensures |r| <= |s| && (|r| == 0 <==> |s| == 0)
    ensures forall i :: 0 <= i < |r| ==> cls(r[i]) ==> r[i] == ' '
    ensures forall i :: 0 <= i < |r| - 1 ==> !(cls(r[i]) && cls(r[i + 1]))
    ensures |s| > 0 ==> (cls(r[|r| - 1]) <==> cls(s[|s| - 1]))
    decreases |s|
  {
    if s == [] then []
    else
      var n := |s| - 1;
      var init := Collapse(s[..n], cls);
      if !cls(s[n]) then init + [s[n]]
      else if n > 0 && cls(s[n - 1]) then init
      else init + [' ']
  }

  /** Collapsing keeps every character outside the class, in order. */
  lemma {:induction false} CollapseKeepsText(s: string, cls: char -> bool)
    requires cls(' ')
    ensures Filter(Collapse(s, cls), Not(cls)) == Filter(s, Not(cls))
    decreases |s|
  {
    if s != [] {
      var n := |s| - 1;
      var init := Collapse(s[..n], cls);
      CollapseKeepsText(s[..n], cls);
      assert s == s[..n] + [s[n]];
      FilterAppend(s[..n], [s[n]], Not(cls));
      assert [s[n]][..0] == [];
      if !cls(s[n]) {
        FilterAppend(init, [s[n]], Not(cls));
      } else if !(n > 0 && cls(s[n - 1])) {
        FilterAppend(init, [' '], Not(cls));
        assert [' '][..0] == [];
      }
    }
  }

  /** Blanking tabs and newlines keeps every other character except the
      space: it is in the result exactly when it is in the input. */
  lemma BlankKeeps(s: string, c: char)
    requires c != ' ' && !IsTabOrNewline(c)
    ensures c in BlankTabsNewlines(s) <==> c in s
  {
    var r := BlankTabsNewlines(s);
    if c in s {
      var i :| 0 <= i < |s| && s[i] == c;
      assert r[i] == c;
    }
    if c in r {
      var i :| 0 <= i < |r| && r[i] == c;
      assert s[i] == c;
    }
  }

  /** A character outside the class survives collapsing exactly when it was
      there; one inside the class survives only as the space. */
  lemma CollapseMembers(s: string, cls: char -> bool, c: char)
    requires cls(' ')
    ensures !cls(c) ==> (c in Collapse(s, cls) <==> c in s)
    ensures cls(c) && c in Collapse(s, cls) ==> c == ' '
  {
    CollapseKeepsText(s, cls);
    FilterMembers(Collapse(s, cls), Not(cls), c);
    FilterMembers(s, Not(cls), c);
    if cls(c) && c in Collapse(s, cls) {
      var r := Collapse(s, cls);
      var i :| 0 <= i < |r| && r[i] == c;
    }
  }

  /** `re.sub(x, '', s)`: every occurrence of the character x removed. */
  function Remove(s: string, x: char): (r: string)
    ensures x !in r
    ensures forall c :: c != x ==> (c in r <==> c in s)
  {
    var r := Filter(s, Other(x));
    forall c ensures c in r <==> c in s && c != x {
      FilterMembers(s, Other(x), c);
    }
    r
  }

  function Other(x: char): char -> bool {
    c => c != x
  }

  /** One more character: outside the class it is kept, inside it opens a
      new run unless the previous character already did. */
  lemma CollapseSnoc(s: string, c: char, cls: char -> bool)
    requires cls(' ')
    ensures Collapse(s + [c], cls) ==
      if !cls(c) then Collapse(s, cls) + [c]
      else if |s| > 0 && cls(s[|s| - 1]) then Collapse(s, cls)
      else Collapse(s, cls) + [' ']
  {
    assert (s + [c])[..|s|] == s;
  }

  /** A text with single spaces around a quote is left alone by any
      collapse whose class holds the space but not the letters or the quote. */
  lemma CollapseQuoteExample(cls: char -> bool)
    requires cls(' ') && !cls('a') && !cls('b') && !cls('\'')
    ensures Collapse("a ' b", cls) == "a ' b"
  {
    CollapseQuoteFront(cls);
    assert "a ' " == "a '" + [' '];
    CollapseSnoc("a '", ' ', cls);
    assert Collapse("a ' ", cls) == "a ' ";
    assert "a ' b" == "a ' " + ['b'];
    CollapseSnoc("a ' ", 'b', cls);
  }

  lemma CollapseQuoteFront(cls: char -> bool)
    requires cls(' ') && !cls('a') && !cls('\'')
    ensures Collapse("a '", cls) == "a '"
  {
    assert "a" == [] + ['a'];
    CollapseSnoc([], 'a', cls);
    assert Collapse("a", cls) == "a";
    assert "a " == "a" + [' '];
    CollapseSnoc("a", ' ', cls);
    assert Collapse("a ", cls) == "a ";
    assert "a '" == "a " + ['\''];
    CollapseSnoc("a ", '\'', cls);
  }

  /** One more character is kept exactly when it is not the one removed. */
  lemma RemoveSnoc(s: string, c: char, x: char)
    ensures Remove(s + [c], x) == if c == x then Remove(s, x) else Remove(s, x) + [c]
  {
    assert (s + [c])[..|s|] == s;
  }

  lemma RemoveQuoteExample()
    ensures Remove("a ' b", '\'') == "a  b"
  {
    assert "a" == [] + ['a'];
    RemoveSnoc([], 'a', '\'');
    assert "a " == "a" + [' '];
    RemoveSnoc("a", ' ', '\'');
    assert "a '" == "a " + ['\''];
    RemoveSnoc("a ", '\'', '\'');
    assert "a ' " == "a '" + [' '];
    RemoveSnoc("a '", ' ', '\'');
    assert "a ' b" == "a ' " + ['b'];
    RemoveSnoc("a ' ", 'b', '\'');
  }

  lemma RemoveDoubleQuoteExample()
    ensures Remove("a  b", '"') == "a  b"
  {
    assert "a" == [] + ['a'];
    RemoveSnoc([], 'a', '"');
    assert "a " == "a" + [' '];
    RemoveSnoc("a", ' ', '"');
    assert "a  " == "a " + [' '];
    RemoveSnoc("a ", ' ', '"');
    assert "a  b" == "a  " + ['b'];
    RemoveSnoc("a  ", 'b', '"');
  }
}
