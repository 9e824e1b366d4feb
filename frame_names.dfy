/** Names of the pre-rendered animation frames: `padNumber` and the
    `{base}{NNNN}.webp` paths that `preloadImages` requests, in index order. */
module FrameNames {

  /** The character of one decimal digit. */
  function DigitChar(d: nat): (c: char)
    requires d < 10
    ensures '0' <= c <= '9' && (c as int) - ('0' as int) == d
  {
    (('0' as int) + d) as char
  }

  /** `n.toString()` for a non-negative integer: its decimal digits, no leading zero. */
  function NatToString(n: nat): (s: string)
    ensures |s| >= 1
    ensures forall i :: 0 <= i < |s| ==> '0' <= s[i] <= '9'
  {
    if n < 10 then [DigitChar(n)] else NatToString(n / 10) + [DigitChar(n % 10)]
  }

  /** The number a string of decimal digits denotes (the inverse of the two renderings above). */
  function DigitsValue(s: string): nat
  {
    if s == [] then 0
    else
      var d := (s[|s| - 1] as int) - ('0' as int);
      DigitsValue(s[..|s| - 1]) * 10 + (if 0 <= d then d else 0)
  }

  /** JavaScript's `s.padStart(width, fill)` for a one-character fill. */
  function PadStart(s: string, width: nat, fill: char): (r: string)
    ensures |r| == if |s| >= width then |s| else width
    ensures r[|r| - |s|..] == s
    ensures forall i :: 0 <= i < |r| - |s| ==> r[i] == fill
  {
    if |s| >= width then s else seq(width - |s|, _ => fill) + s
  }

  /** `padNumber(n)`: the decimal digits of `n`, left-padded with zeros to four characters. */
  function PadNumber(n: nat): (s: string)
    ensures |s| >= 4
    ensures |s| == 4 <==> n <= 9999
  {
    NatToStringLength(n, 4);
    assert Pow10(4) == 10000;
    PadStart(NatToString(n), 4, '0')
  }

  /** The path of frame `i` under `base` (which carries its trailing slash): the base,
      the padded number, then the extension. */
  function FramePath(base: string, i: nat): (p: string)
    ensures |p| == |base| + |PadNumber(i)| + 5
    ensures p[..|base|] == base && p[|p| - 5..] == ".webp"
    ensures p[|base|..|p| - 5] == PadNumber(i)
  {
    base + PadNumber(i) + ".webp"
  }

  /** The ordered list of frame paths `preloadImages` builds: entry k is frame k + 1. */
  function FrameSequence(base: string, n: nat): (r: seq<string>)
    ensures |r| == n
  {
    seq(n, k requires 0 <= k < n => FramePath(base, k + 1))
  }

  /** Pushing the path of frame n + 1 onto the list of the first n frames gives the list
      of the first n + 1: the list is built by appending in frame order. */
  lemma FrameSequenceStep(base: string, n: nat)
    ensures FrameSequence(base, n + 1) == FrameSequence(base, n) + [FramePath(base, n + 1)]
  {
  }

  function Pow10(k: nat): (p: nat)
    ensures p >= 1
  {
    if k == 0 then 1 else 10 * Pow10(k - 1)
  }

  /** Reading back the decimal rendering gives the number. */
  lemma {:induction false} NatToStringRoundTrip(n: nat)
    ensures DigitsValue(NatToString(n)) == n
  {
    if n >= 10 {
      var s := NatToString(n);
      NatToStringRoundTrip(n / 10);
      assert s[..|s| - 1] == NatToString(n / 10);
    }
  }

  /** A leading zero does not change the value of a digit string. */
  lemma {:induction false} LeadingZero(s: string)
    ensures DigitsValue(['0'] + s) == DigitsValue(s)
  {
    if s != [] {
      var t := ['0'] + s;
      assert t[..|t| - 1] == ['0'] + s[..|s| - 1];
      LeadingZero(s[..|s| - 1]);
    }
  }

  /** Any number of leading zeros does not change the value of a digit string. */
  lemma {:induction false} LeadingZeros(z: string, s: string)
    requires forall i :: 0 <= i < |z| ==> z[i] == '0'
    ensures DigitsValue(z + s) == DigitsValue(s)
  {
    if z != [] {
      var rest := z[1..] + s;
      assert z + s == ['0'] + rest by {
        assert z == [z[0]] + z[1..];
      }
      calc {
        DigitsValue(z + s);
        DigitsValue(['0'] + rest);
        { LeadingZero(rest); }
        DigitsValue(rest);
        { LeadingZeros(z[1..], s); }
        DigitsValue(s);
      }
    } else {
      assert z + s == s;
    }
  }

  /** `padNumber` loses nothing: its digits read back as the number. */
  lemma PadNumberRoundTrip(n: nat)
    ensures DigitsValue(PadNumber(n)) == n
  {
    var s := NatToString(n);
    NatToStringRoundTrip(n);
    var p := PadNumber(n);
    assert p == p[..|p| - |s|] + s;
    LeadingZeros(p[..|p| - |s|], s);
  }

  /** The decimal rendering has at most k digits exactly when n < 10^k. */
  lemma {:induction false} NatToStringLength(n: nat, k: nat)
    requires k >= 1
    ensures |NatToString(n)| <= k <==> n < Pow10(k)
  {
    if n >= 10 && k > 1 {
      NatToStringLength(n / 10, k - 1);
    } else if n >= 10 {
      assert |NatToString(n)| == |NatToString(n / 10)| + 1;
    }
  }

  /** `padNumber(n)` is exactly four zero-padded digits for every n up to 9999, and is
      wider than four characters (the plain decimal rendering) from 10000 on. */
  lemma PadNumberShape(n: nat)
    ensures forall i :: 0 <= i < |PadNumber(n)| ==> '0' <= PadNumber(n)[i] <= '9'
    ensures |PadNumber(n)| == 4 <==> n <= 9999
    ensures n > 9999 ==> PadNumber(n) == NatToString(n)
  {
    NatToStringLength(n, 4);
    assert Pow10(4) == 10000;
  }

  /** Distinct frame numbers get distinct names. */
  lemma PadNumberInjective(i: nat, j: nat)
    requires PadNumber(i) == PadNumber(j)
    ensures i == j
  {
    PadNumberRoundTrip(i);
    PadNumberRoundTrip(j);
  }

  /** Under one base, distinct frame numbers give distinct paths. */
  lemma FramePathInjective(base: string, i: nat, j: nat)
    requires FramePath(base, i) == FramePath(base, j)
    ensures i == j
  {
    assert PadNumber(i) == FramePath(base, i)[|base|..|FramePath(base, i)| - 5];
    PadNumberInjective(i, j);
  }

  /** Entry k of the frame list is the path of frame k + 1. */
  lemma FrameSequenceAt(base: string, n: nat, k: nat)
    requires k < n
    ensures FrameSequence(base, n)[k] == FramePath(base, k + 1)
  {
  }

  /** The frame list has no repeated entry: no frame is requested twice. */
  lemma FrameSequenceDistinct(base: string, n: nat, j: nat, k: nat)
    requires j < n && k < n && j != k
    ensures FrameSequence(base, n)[j] != FrameSequence(base, n)[k]
  {
    FrameSequenceAt(base, n, j);
    FrameSequenceAt(base, n, k);
    if FramePath(base, j + 1) == FramePath(base, k + 1) {
      FramePathInjective(base, j + 1, k + 1);
    }
  }
}
