/** String helpers shared by the extractor and the layout engine:
    JavaScript's `Array.prototype.join`, `toUpperCase` on the ASCII titles, and
    `arrayToBulletedString`; `Lines` reads a string back into its lines, for stating
    properties only. */
module Strings {

  /** `xs.join(sep)`: the items with `sep` between consecutive ones. */
  function Join(xs: seq<string>, sep: string): string
  {
    if |xs| == 0 then ""
    else if |xs| == 1 then xs[0]
    else xs[0] + sep + Join(xs[1..], sep)
  }

  /** The lines of a string: its maximal newline-free pieces, always at least one (used to
      read text back in properties). */
  function Lines(s: string): (r: seq<string>)
    ensures |r| >= 1
    decreases |s|
  {
    if |s| == 0 then [""]
    else if s[0] == '\n' then [""] + Lines(s[1..])
    else
      var rest := Lines(s[1..]);
      [[s[0]] + rest[0]] + rest[1..]
  }

  /** Number of occurrences of `c` in `s`. */
  function Count(c: char, s: string): nat
  {
    if |s| == 0 then 0 else (if s[0] == c then 1 else 0) + Count(c, s[1..])
  }

  predicate NoNewline(s: string)
  {
    '\n' !in s
  }

  /** The bullet glyph and space that prefix every bulleted item. */
  const Bullet: string := "• "

  /** `arrayToBulletedString` (server.mjs:64-66): `arr.map(item => `• ${item}`).join('\n')`. */
  function Bulleted(items: seq<string>): (r: string)
    ensures |items| == 0 <==> r == ""
    ensures |items| > 0 ==> |r| >= |Bullet| && r[..|Bullet|] == Bullet
  {
    var prefixed := seq(|items|, i requires 0 <= i < |items| => Bullet + items[i]);
    BulletedHead(prefixed, items);
    Join(prefixed, "\n")
  }

  lemma BulletedHead(prefixed: seq<string>, items: seq<string>)
    requires |prefixed| == |items|
    requires forall i :: 0 <= i < |items| ==> prefixed[i] == Bullet + items[i]
    ensures |items| == 0 <==> Join(prefixed, "\n") == ""
    ensures |items| > 0 ==> |Join(prefixed, "\n")| >= |Bullet| && Join(prefixed, "\n")[..|Bullet|] == Bullet
  {
    if |items| > 1 {
      assert Join(prefixed, "\n") == prefixed[0] + ("\n" + Join(prefixed[1..], "\n"));
    }
  }

  /** ASCII upper-casing of one character (the section titles are ASCII). */
  function UpperChar(c: char): char
  {
    if 'a' <= c <= 'z' then (c as int - 32) as char else c
  }

  /** `s.toUpperCase()` for ASCII text. */
  function Upper(s: string): (r: string)
    ensures |r| == |s|
    ensures forall i :: 0 <= i < |s| ==> r[i] == UpperChar(s[i])
  {
    seq(|s|, i requires 0 <= i < |s| => UpperChar(s[i]))
  }

  // ---------------------------------------------------------------------
  // Properties of Join and Lines
  // ---------------------------------------------------------------------

  /** Appending one item to a non-empty list appends the separator and that item. */
  lemma {:induction false} JoinSnoc(xs: seq<string>, x: string, sep: string)
    requires |xs| > 0
    ensures Join(xs + [x], sep) == Join(xs, sep) + sep + x
  {
    if |xs| == 1 {
      assert xs + [x] == [xs[0], x];
      assert [xs[0], x][1..] == [x];
    } else {
      assert (xs + [x])[1..] == xs[1..] + [x];
      JoinSnoc(xs[1..], x, sep);
    }
  }

  /** A newline-free string is one line. */
  lemma {:induction false} LinesOfPlain(a: string)
    requires NoNewline(a)
    ensures Lines(a) == [a]
    decreases |a|
  {
    if |a| > 0 {
      assert NoNewline(a[1..]) by { assert forall k :: 0 <= k < |a| - 1 ==> a[1..][k] == a[k + 1]; }
      LinesOfPlain(a[1..]);
      assert [a[0]] + a[1..] == a;
    }
  }

  /** A newline-free prefix followed by a newline is split off as the first line. */
  lemma {:induction false} LinesOfCons(a: string, rest: string)
    requires NoNewline(a)
    ensures Lines(a + "\n" + rest) == [a] + Lines(rest)
    decreases |a|
  {
    var s := a + "\n" + rest;
    if |a| == 0 {
      assert s == "\n" + rest;
      assert s[1..] == rest;
    } else {
      assert NoNewline(a[1..]) by { assert forall k :: 0 <= k < |a| - 1 ==> a[1..][k] == a[k + 1]; }
      assert s[1..] == a[1..] + "\n" + rest;
      LinesOfCons(a[1..], rest);
      assert [a[0]] + a[1..] == a;
    }
  }

  /** Splitting undoes joining: `join('\n')` then `split('\n')` gives back the items,
      provided none of them contains a newline. */
  lemma {:induction false} LinesOfJoin(xs: seq<string>)
    requires |xs| > 0
    requires forall i :: 0 <= i < |xs| ==> NoNewline(xs[i])
    ensures Lines(Join(xs, "\n")) == xs
  {
    if |xs| == 1 {
      LinesOfPlain(xs[0]);
    } else {
      LinesOfJoin(xs[1..]);
      LinesOfCons(xs[0], Join(xs[1..], "\n"));
      assert [xs[0]] + xs[1..] == xs;
    }
  }

  /** A string has one more line than it has newlines. */
  lemma {:induction false} LinesCount(s: string)
    ensures |Lines(s)| == Count('\n', s) + 1
    decreases |s|
  {
    if |s| > 0 {
      LinesCount(s[1..]);
    }
  }

  // ---------------------------------------------------------------------
  // Properties of arrayToBulletedString
  // ---------------------------------------------------------------------

  /** The bulleted string splits back into exactly the prefixed items, in order. */
  lemma BulletedLines(items: seq<string>)
    requires |items| > 0
    requires forall i :: 0 <= i < |items| ==> NoNewline(items[i])
    ensures Lines(Bulleted(items)) == seq(|items|, i requires 0 <= i < |items| => Bullet + items[i])
  {
    var prefixed := seq(|items|, i requires 0 <= i < |items| => Bullet + items[i]);
    forall i | 0 <= i < |items| ensures NoNewline(prefixed[i]) {
      assert forall k :: 0 <= k < |Bullet| ==> prefixed[i][k] == Bullet[k];
      assert forall k :: |Bullet| <= k < |prefixed[i]| ==> prefixed[i][k] == items[i][k - |Bullet|];
    }
    LinesOfJoin(prefixed);
  }

  /** n items without newlines are separated by exactly n - 1 newlines. */
  lemma BulletedSeparators(items: seq<string>)
    requires |items| > 0
    requires forall i :: 0 <= i < |items| ==> NoNewline(items[i])
    ensures Count('\n', Bulleted(items)) == |items| - 1
  {
    BulletedLines(items);
    LinesCount(Bulleted(items));
  }

  /** Adding an item appends a newline, the bullet and the item (items may contain anything). */
  lemma BulletedSnoc(items: seq<string>, x: string)
    requires |items| > 0
    ensures Bulleted(items + [x]) == Bulleted(items) + "\n" + Bullet + x
  {
    var p := seq(|items|, i requires 0 <= i < |items| => Bullet + items[i]);
    var q := seq(|items + [x]|, i requires 0 <= i < |items + [x]| => Bullet + (items + [x])[i]);
    assert q == p + [Bullet + x];
    JoinSnoc(p, Bullet + x, "\n");
  }
}
