/**
 * formatScore of game.js: score.toString().padStart(5, '0') for the
 * non-negative integer scores the game displays.
 */
module ScoreFormat {

  const Width: nat := 5

  predicate IsDigit(c: char) { '0' as int <= c as int <= '9' as int }

  predicate AllDigits(s: string) { forall k :: 0 <= k < |s| ==> IsDigit(s[k]) }

  function DigitChar(d: nat): (c: char)
    requires d < 10
    ensures IsDigit(c) && c as int - '0' as int == d
  {
    ('0' as int + d) as char
  }

  function Pow10(n: nat): nat
  {
    if n == 0 then 1 else 10 * Pow10(n - 1)
  }

  /**
   * Number.prototype.toString() on a non-negative integer below 10^21: its
   * shortest decimal digits (from 10^21 up JavaScript switches to exponent form).
   */
  function Decimal(n: nat): (s: string)
    ensures |s| >= 1 && AllDigits(s)
    decreases n
  {
    if n < 10 then [DigitChar(n)] else Decimal(n / 10) + [DigitChar(n % 10)]
  }

  /** String.prototype.padStart: `fill` prepended until the string has length `len`. */
  function PadStart(s: string, len: nat, fill: char): (r: string)
    ensures |r| == if |s| >= len then |s| else len
    ensures r[|r| - |s|..] == s
    ensures forall k :: 0 <= k < |r| - |s| ==> r[k] == fill
  {
    if |s| >= len then s else seq(len - |s|, _ => fill) + s
  }

  /** The displayed score: its decimal digits left-padded with '0' to at least five characters. */
  function FormatScore(score: nat): string
  {
    PadStart(Decimal(score), Width, '0')
  }

  /** The value of a string of decimal digits, leading zeros allowed. */
  function ParseDecimal(s: string): nat
    requires AllDigits(s)
  {
    if s == [] then 0
    else 10 * ParseDecimal(s[..|s| - 1]) + (s[|s| - 1] as int - '0' as int)
  }

  /** Decimal is the shortest representation: n has exactly |Decimal(n)| digits. */
  lemma {:induction false} DecimalLength(n: nat)
    ensures n < Pow10(|Decimal(n)|)
    ensures |Decimal(n)| > 1 ==> Pow10(|Decimal(n)| - 1) <= n
    decreases n
  {
    if n >= 10 {
      DecimalLength(n / 10);
    }
  }

  lemma {:induction false} ParseDecimalOfDecimal(n: nat)
    ensures ParseDecimal(Decimal(n)) == n
    decreases n
  {
    if n >= 10 {
      ParseDecimalOfDecimal(n / 10);
      var s := Decimal(n);
      assert s[..|s| - 1] == Decimal(n / 10);
    }
  }

  /** Leading zeros do not change the value. */
  lemma {:induction false} ParseLeadingZeros(z: nat, s: string)
    requires AllDigits(s)
    ensures AllDigits(seq(z, _ => '0') + s)
    ensures ParseDecimal(seq(z, _ => '0') + s) == ParseDecimal(s)
    decreases |s|, z
  {
    var zeros: string := seq(z, _ => '0');
    if s == [] {
      assert zeros + s == zeros;
      if z > 0 {
        assert zeros[..z - 1] == seq(z - 1, _ => '0');
        ParseLeadingZeros(z - 1, []);
        assert seq(z - 1, _ => '0') + [] == seq(z - 1, _ => '0');
      }
    } else {
      var t := zeros + s;
      assert t[..|t| - 1] == zeros + s[..|s| - 1];
      ParseLeadingZeros(z, s[..|s| - 1]);
    }
  }

  /**
   * The formatted score has length max(5, digits) and is the decimal digits
   * preceded only by '0's; it is exactly five characters below 100000.
   */
  lemma FormatScoreShape(score: nat)
    ensures |FormatScore(score)| == if |Decimal(score)| >= Width then |Decimal(score)| else Width
    ensures |FormatScore(score)| == Width <==> score < 100000
    ensures AllDigits(FormatScore(score))
    ensures FormatScore(score)[|FormatScore(score)| - |Decimal(score)|..] == Decimal(score)
    ensures forall k :: 0 <= k < |FormatScore(score)| - |Decimal(score)| ==> FormatScore(score)[k] == '0'
  {
    var d := Decimal(score);
    var f := PadStart(d, Width, '0');
    assert f == FormatScore(score);
    DecimalLength(score);
    if |d| < Width {
      PowMonotone(|d|, Width);
    } else if |d| > Width {
      PowMonotone(Width, |d| - 1);
    }
    assert forall k :: 0 <= k < |f| ==> IsDigit(f[k]) by {
      forall k | 0 <= k < |f| ensures IsDigit(f[k]) {
        if k >= |f| - |d| {
          assert f[k] == f[|f| - |d|..][k - (|f| - |d|)];
        }
      }
    }
  }

  /** The formatted score reads back as the score. */
  lemma FormatScoreRoundTrip(score: nat)
    ensures AllDigits(FormatScore(score))
    ensures ParseDecimal(FormatScore(score)) == score
  {
    var d := Decimal(score);
    ParseDecimalOfDecimal(score);
    FormatScoreShape(score);
    if |d| < Width {
      assert FormatScore(score) == seq(Width - |d|, _ => '0') + d;
      ParseLeadingZeros(Width - |d|, d);
    } else {
      assert FormatScore(score) == d;
    }
  }

  lemma {:induction false} PowMonotone(a: nat, b: nat)
    requires a <= b
    ensures Pow10(a) <= Pow10(b)
    decreases b
  {
    if a < b {
      PowMonotone(a, b - 1);
    }
  }
}
