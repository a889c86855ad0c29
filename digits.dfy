/** Number formatting: `Number.prototype.toString(base)` on non-negative
    integers, `padStart`, and the colour string built by `getRandomColor`. */
module Digits {

  const HexDigits: string := "0123456789abcdef"

  /** The digit character for `d` (lower-case, as JavaScript prints it). */
  function DigitChar(d: nat): char
    requires d < 16
  {
    HexDigits[d]
  }

  /** The value of a digit character, the inverse of DigitChar. */
  function DigitValue(c: char): nat
  {
    if '0' <= c <= '9' then c as int - '0' as int
    else if 'a' <= c <= 'f' then c as int - 'a' as int + 10
    else 0
  }

  /** `s` consists only of digits valid in base `b`. */
  predicate IsDigits(s: string, b: nat)
    requires 2 <= b <= 16
  {
    forall i :: 0 <= i < |s| ==> s[i] in HexDigits[..b]
  }

  /** `n.toString(b)`: most significant digit first, no leading zeros, "0" for zero. */
  function ToBase(n: nat, b: nat): (r: string)
    requires 2 <= b <= 16
    decreases n
  {
    if n < b then [DigitChar(n)] else ToBase(n / b, b) + [DigitChar(n % b)]
  }

  /** The value of a digit string read in base `b` (the reference for ToBase). */
  function ValueOf(s: string, b: nat): nat
    requires 2 <= b <= 16
  {
    if |s| == 0 then 0 else ValueOf(s[..|s| - 1], b) * b + DigitValue(s[|s| - 1])
  }

  function Pow(b: nat, k: nat): nat
  {
    if k == 0 then 1 else b * Pow(b, k - 1)
  }

  function Repeat(c: char, k: nat): (r: string)
    ensures |r| == k && forall i :: 0 <= i < k ==> r[i] == c
  {
    if k == 0 then [] else Repeat(c, k - 1) + [c]
  }

  /** `s.padStart(len, c)` for a one-character pad string. */
  function PadStart(s: string, len: nat, c: char): (r: string)
    ensures |r| == if |s| >= len then |s| else len
    ensures r[|r| - |s|..] == s
  {
    if |s| >= len then s else Repeat(c, len - |s|) + s
  }

  /** The colour formatting of `getRandomColor` (server.mjs:61):
      `'#' + n.toString(16).padStart(6, '0')`. */
  function HexColor(n: nat): (r: string)
    ensures |r| >= 7 && r[0] == '#'
    ensures IsDigits(r[1..], 16) && ValueOf(r[1..], 16) == n
  {
    PaddedDigits(n, 6, 16);
    "#" + PadStart(ToBase(n, 16), 6, '0')
  }

  // ---------------------------------------------------------------------
  // Lemmas
  // ---------------------------------------------------------------------

  lemma DigitRoundTrip(d: nat, b: nat)
    requires 2 <= b <= 16 && d < b
    ensures DigitValue(DigitChar(d)) == d
    ensures DigitChar(d) in HexDigits[..b]
  {
    assert HexDigits[..b][d] == DigitChar(d);
  }

  lemma DivMod(n: nat, b: nat)
    requires 2 <= b <= n
    ensures n == (n / b) * b + n % b && n % b < b && 1 <= n / b < n
  {
    var q := n / b;
    assert q * b <= n;
    MulMono(b, 2, q);
  }

  lemma MulMono(x: nat, y: nat, c: nat)
    requires x >= y
    ensures x * c >= y * c
  {
    assert x * c - y * c == (x - y) * c;
  }

  /** ToBase writes only digits valid in base b. */
  lemma {:induction false} ToBaseDigits(n: nat, b: nat)
    requires 2 <= b <= 16
    ensures IsDigits(ToBase(n, b), b)
    decreases n
  {
    if n < b {
      DigitRoundTrip(n, b);
    } else {
      DivMod(n, b);
      ToBaseDigits(n / b, b);
      DigitRoundTrip(n % b, b);
    }
  }

  /** Reading back what ToBase wrote gives the number. */
  lemma {:induction false} ToBaseRoundTrip(n: nat, b: nat)
    requires 2 <= b <= 16
    ensures ValueOf(ToBase(n, b), b) == n
    decreases n
  {
    var s := ToBase(n, b);
    if n < b {
      DigitRoundTrip(n, b);
      assert s[..0] == [];
    } else {
      var q, m := n / b, n % b;
      DivMod(n, b);
      var hi := ToBase(q, b);
      ToBaseRoundTrip(q, b);
      DigitRoundTrip(m, b);
      assert s == hi + [DigitChar(m)];
      assert s[..|s| - 1] == hi;
      assert ValueOf(s, b) == ValueOf(hi, b) * b + m;
    }
  }

  /** A number below b^k needs at most k digits. */
  lemma {:induction false} ToBaseLength(n: nat, b: nat, k: nat)
    requires 2 <= b <= 16 && 1 <= k && n < Pow(b, k)
    ensures |ToBase(n, b)| <= k
    decreases n
  {
    if n >= b {
      if k > 1 {
        DivMod(n, b);
        assert n / b < Pow(b, k - 1) by {
          if n / b >= Pow(b, k - 1) {
            MulMono(n / b, Pow(b, k - 1), b);
            assert false;
          }
        }
        ToBaseLength(n / b, b, k - 1);
      }
    }
  }

  /** Leading zeros do not change the value of a digit string. */
  lemma {:induction false} ValueOfLeadingZeros(k: nat, s: string, b: nat)
    requires 2 <= b <= 16
    ensures ValueOf(Repeat('0', k) + s, b) == ValueOf(s, b)
    decreases |s|, k
  {
    var z := Repeat('0', k);
    if |s| == 0 {
      assert z + s == z;
      if k > 0 {
        assert z[..k - 1] == Repeat('0', k - 1);
        ValueOfLeadingZeros(k - 1, [], b);
        assert Repeat('0', k - 1) + [] == Repeat('0', k - 1);
      }
    } else {
      var t := z + s;
      assert t[..|t| - 1] == z + s[..|s| - 1];
      assert t[|t| - 1] == s[|s| - 1];
      ValueOfLeadingZeros(k, s[..|s| - 1], b);
    }
  }

  lemma IsDigitsPadded(k: nat, s: string, b: nat)
    requires 2 <= b <= 16 && IsDigits(s, b)
    ensures IsDigits(Repeat('0', k) + s, b)
  {
    assert '0' == HexDigits[..b][0];
    var t := Repeat('0', k) + s;
    forall i | 0 <= i < |t| ensures t[i] in HexDigits[..b] {
      if i >= k { assert t[i] == s[i - k]; }
    }
  }

  /** "ffffff" is 0xffffff. */
  lemma ValueOfWhite()
    ensures ValueOf("ffffff", 16) == 16777215
  {
    assert "ffffff"[..5] == "fffff";
    assert "fffff"[..4] == "ffff";
    assert "ffff"[..3] == "fff";
    assert "fff"[..2] == "ff";
    assert "ff"[..1] == "f";
    assert "f"[..0] == "";
  }

  lemma Pow16()
    ensures Pow(16, 6) == 16777216
  {
    assert Pow(16, 2) == 256;
    assert Pow(16, 4) == 65536;
  }

  /** Zero-padding keeps a digit string's digits and value. */
  lemma PadStartZeros(s: string, len: nat, b: nat)
    requires 2 <= b <= 16 && IsDigits(s, b) && |s| <= len
    ensures |PadStart(s, len, '0')| == len
    ensures IsDigits(PadStart(s, len, '0'), b)
    ensures ValueOf(PadStart(s, len, '0'), b) == ValueOf(s, b)
  {
    if |s| < len {
      ValueOfLeadingZeros(len - |s|, s, b);
      IsDigitsPadded(len - |s|, s, b);
    }
  }

  /** `n.toString(b).padStart(len, '0')` is always a digit string whose value is n. */
  lemma PaddedDigits(n: nat, len: nat, b: nat)
    requires 2 <= b <= 16
    ensures IsDigits(PadStart(ToBase(n, b), len, '0'), b)
    ensures ValueOf(PadStart(ToBase(n, b), len, '0'), b) == n
  {
    ToBaseDigits(n, b);
    ToBaseRoundTrip(n, b);
    if |ToBase(n, b)| <= len {
      PadStartZeros(ToBase(n, b), len, b);
    }
  }

  /** Six zero-padded hex digits whose value is n. */
  lemma PaddedHex(n: nat)
    requires n < 16777216
    ensures |PadStart(ToBase(n, 16), 6, '0')| == 6
    ensures IsDigits(PadStart(ToBase(n, 16), 6, '0'), 16)
    ensures ValueOf(PadStart(ToBase(n, 16), 6, '0'), 16) == n
  {
    Pow16();
    ToBaseLength(n, 16, 6);
    ToBaseRoundTrip(n, 16);
    ToBaseDigits(n, 16);
    PadStartZeros(ToBase(n, 16), 6, 16);
  }

  /** For every value `Math.floor(Math.random() * 16777215)` can take, the colour is
      '#' followed by exactly six lower-case hex digits whose value is `n`; as n never
      reaches 0xffffff, white is never chosen. */
  lemma HexColorWellFormed(n: nat)
    requires n < 16777215
    ensures |HexColor(n)| == 7 && HexColor(n)[0] == '#'
    ensures IsDigits(HexColor(n)[1..], 16)
    ensures ValueOf(HexColor(n)[1..], 16) == n
    ensures HexColor(n) != "#ffffff"
  {
    var p := PadStart(ToBase(n, 16), 6, '0');
    PaddedHex(n);
    assert HexColor(n)[1..] == p;
    if HexColor(n) == "#ffffff" {
      assert p == "#ffffff"[1..] == "ffffff";
      ValueOfWhite();
      assert false;
    }
  }
}
