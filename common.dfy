// Shared vocabulary of the ray tracer model: optional values and results,
// fixed-width unsigned integers, 8-bit colours, and decimal text.

module Wrappers {
  datatype Option<T> = None | Some(value: T)

  datatype Result<T, E> = Ok(value: T) | Err(error: E)
  {
    predicate IsFailure() { Err? }

    function PropagateFailure<U>(): Result<U, E>
      requires Err?
    {
      Err(error)
    }

    function Extract(): T
      requires Ok?
    {
      value
    }
  }
}

module Integers {
  /** An unsigned 8-bit value (png_byte, uint8_t). */
  type Byte = b: int | 0 <= b < 256

  const UINT32_LIMIT: nat := 0x1_0000_0000
  const SIZE_T_LIMIT: nat := 0x1_0000_0000_0000_0000

  /** The value an unsigned 32-bit conversion keeps (C++ integral conversion). */
  function ToUInt32(n: int): (r: nat)
    ensures r < UINT32_LIMIT
    ensures 0 <= n < UINT32_LIMIT ==> r == n
    ensures (r - n) % UINT32_LIMIT == 0
  {
    n % UINT32_LIMIT
  }

  /** The value a 64-bit size_t keeps. */
  function ToSizeT(n: int): (r: nat)
    ensures r < SIZE_T_LIMIT
    ensures 0 <= n < SIZE_T_LIMIT ==> r == n
    ensures (r - n) % SIZE_T_LIMIT == 0
  {
    n % SIZE_T_LIMIT
  }

  function Min(a: int, b: int): (m: int)
    ensures m <= a && m <= b && (m == a || m == b)
  {
    if a < b then a else b
  }

  function Max(a: int, b: int): (m: int)
    ensures m >= a && m >= b && (m == a || m == b)
  {
    if a < b then b else a
  }

  /**
   * Row-major addressing: element (x, y) of a width-w grid sits at y * w + x,
   * and that index gives back x and y by remainder and quotient.
   */
  lemma RowMajor(x: nat, y: nat, w: nat, h: nat)
    requires x < w && y < h
    ensures y * w + x < w * h
    ensures (y * w + x) % w == x
    ensures (y * w + x) / w == y
  {
    assert y * w + x < (y + 1) * w <= h * w by {
      assert (y + 1) * w == y * w + w;
      MulMonotone(y + 1, h, w);
    }
    DivModUnique(y * w + x, w, y, x);
  }

  lemma MulMonotone(a: nat, b: nat, c: nat)
    requires a <= b
    ensures a * c <= b * c
  {
  }

  lemma DivModUnique(n: int, d: int, q: int, r: int)
    requires d > 0 && 0 <= r < d && n == q * d + r
    ensures n / d == q && n % d == r
  {
    var q' := n / d;
    var r' := n % d;
    assert (q - q') * d == r' - r;
    if q > q' {
      MulAtLeast(q - q', d);
    } else if q < q' {
      MulAtLeast(q' - q, d);
    }
  }

  /** Bounds on a quotient from bounds on the dividend. */
  lemma DivBetween(m: nat, d: nat, lo: nat, hi: nat)
    requires d > 0 && lo * d <= m <= hi * d
    ensures lo <= m / d <= hi
  {
    var q := m / d;
    assert m == q * d + m % d;
    if q < lo {
      MulGap(lo, q, d);
    } else if q > hi {
      MulGap(q, hi, d);
    }
  }

  lemma MulGap(a: int, b: int, d: nat)
    requires a > b
    ensures a * d >= b * d + d
  {
    MulAtLeast(a - b, d);
    assert a * d == (a - b) * d + b * d;
  }

  lemma MulAtLeast(k: int, d: nat)
    requires k >= 1
    ensures k * d >= d
  {
    assert k * d == (k - 1) * d + d;
  }
}

module Colors {
  import opened Integers

  /** An 8-bit RGBA colour (Color.h); the default colour is opaque white. */
  datatype Color = Color(R: Byte, G: Byte, B: Byte, A: Byte)

  const White: Color := Color(255, 255, 255, 255)
}

/** Decimal text: std::to_string for integers and std::stoul for 32-bit unsigned long. */
module Decimal {
  import opened Wrappers
  import opened Integers

  predicate IsDigit(c: char) { '0' <= c <= '9' }

  function DigitValue(c: char): (d: nat)
    requires IsDigit(c)
    ensures d < 10
  {
    (c as int) - ('0' as int)
  }

  function DigitChar(d: nat): (c: char)
    requires d < 10
    ensures IsDigit(c) && DigitValue(c) == d
  {
    (('0' as int) + d) as char
  }

  /** std::to_string of a non-negative integer: no sign, no leading zeros. */
  function NatToString(n: nat): (s: string)
    ensures |s| >= 1
    ensures forall i :: 0 <= i < |s| ==> IsDigit(s[i])
    ensures |s| > 1 ==> s[0] != '0'
  {
    if n < 10 then [DigitChar(n)] else NatToString(n / 10) + [DigitChar(n % 10)]
  }

  /** std::to_string of any integer: a leading '-' for negative values. */
  function IntToString(n: int): (s: string)
    ensures |s| >= 1
    ensures n < 0 <==> s[0] == '-'
    ensures n >= 0 ==> s == NatToString(n)
  {
    if n < 0 then "-" + NatToString(-n) else NatToString(n)
  }

  /** The value of a string of decimal digits, most significant first. */
  function DecimalValue(s: string): nat
    requires forall i :: 0 <= i < |s| ==> IsDigit(s[i])
  {
    if |s| == 0 then 0 else DecimalValue(s[..|s| - 1]) * 10 + DigitValue(s[|s| - 1])
  }

  /** The number of leading digit characters. */
  function DigitPrefixLength(s: string): (n: nat)
    ensures n <= |s|
    ensures forall i :: 0 <= i < n ==> IsDigit(s[i])
    ensures n < |s| ==> !IsDigit(s[n])
  {
    if |s| == 0 || !IsDigit(s[0]) then 0 else 1 + DigitPrefixLength(s[1..])
  }

  /** The characters isspace accepts in the "C" locale. */
  predicate IsSpace(c: char)
  {
    c == ' ' || c == '\t' || c == '\n' || c == '\r' || c == '\U{000B}' || c == '\U{000C}'
  }

  /** The two exceptions std::stoul throws. */
  datatype StoulError = InvalidArgument | OutOfRange

  /**
   * std::stoul in base 10 with a 32-bit unsigned long: leading white space is
   * skipped, one optional sign is accepted, the longest digit run is read and
   * the rest ignored; no digits is invalid_argument, a magnitude that does not
   * fit is out_of_range, and a '-' negates modulo 2^32 as strtoul does.
   */
  function Stoul(s: string): (r: Result<nat, StoulError>)
    ensures r.Ok? ==> r.value < UINT32_LIMIT
  {
    if |s| > 0 && IsSpace(s[0]) then Stoul(s[1..])
    else
      var negative := |s| > 0 && s[0] == '-';
      var u := if |s| > 0 && (s[0] == '-' || s[0] == '+') then s[1..] else s;
      var n := DigitPrefixLength(u);
      if n == 0 then Err(InvalidArgument)
      else
        var magnitude := DecimalValue(u[..n]);
        if magnitude >= UINT32_LIMIT then Err(OutOfRange)
        else if negative then Ok(ToUInt32(-(magnitude as int)))
        else Ok(magnitude)
  }

  lemma {:induction false} DecimalValueOfNatToString(n: nat)
    ensures DecimalValue(NatToString(n)) == n
  {
    var s := NatToString(n);
    if n >= 10 {
      DecimalValueOfNatToString(n / 10);
      assert s[..|s| - 1] == NatToString(n / 10);
    }
  }

  /** A string made only of digits reads as its decimal value, when that fits. */
  lemma StoulOfDigits(s: string)
    requires |s| >= 1 && forall i :: 0 <= i < |s| ==> IsDigit(s[i])
    ensures Stoul(s) == if DecimalValue(s) < UINT32_LIMIT then Ok(DecimalValue(s)) else Err(OutOfRange)
  {
    assert !IsSpace(s[0]) && s[0] != '-' && s[0] != '+';
    DigitRunIsWhole(s);
    assert s[..|s|] == s;
  }

  lemma {:induction false} DigitRunIsWhole(s: string)
    requires forall i :: 0 <= i < |s| ==> IsDigit(s[i])
    ensures DigitPrefixLength(s) == |s|
  {
    if |s| > 0 {
      DigitRunIsWhole(s[1..]);
    }
  }

  /** Reading back what to_string wrote gives the number again. */
  lemma StoulOfNatToString(n: nat)
    requires n < UINT32_LIMIT
    ensures Stoul(NatToString(n)) == Ok(n)
  {
    StoulOfDigits(NatToString(n));
    DecimalValueOfNatToString(n);
  }

  /** Digits beyond 2^32 - 1 are rejected rather than wrapped. */
  lemma StoulRejectsLarge(n: nat)
    requires n >= UINT32_LIMIT
    ensures Stoul(NatToString(n)) == Err(OutOfRange)
  {
    StoulOfDigits(NatToString(n));
    DecimalValueOfNatToString(n);
  }

  /**
   * What stoul makes of one text: to_string's text of a number reads back as
   * that number when it fits in 32 bits and is out_of_range otherwise, and a
   * text without digits is invalid_argument.
   */
  lemma StoulOfText(s: string)
    ensures forall n: nat :: s == NatToString(n) && n < UINT32_LIMIT ==> Stoul(s) == Ok(n)
    ensures forall n: nat :: s == NatToString(n) && n >= UINT32_LIMIT ==> Stoul(s) == Err(OutOfRange)
    ensures (forall i :: 0 <= i < |s| ==> !IsDigit(s[i])) ==> Stoul(s) == Err(InvalidArgument)
  {
    forall n: nat | s == NatToString(n)
      ensures Stoul(s) == if n < UINT32_LIMIT then Ok(n) else Err(OutOfRange)
    {
      if n < UINT32_LIMIT {
        StoulOfNatToString(n);
      } else {
        StoulRejectsLarge(n);
      }
    }
    if forall i :: 0 <= i < |s| ==> !IsDigit(s[i]) {
      StoulWithoutDigits(s);
    }
  }

  /** With no digit after the blanks and the sign, stoul throws invalid_argument. */
  lemma {:induction false} StoulWithoutDigits(s: string)
    requires forall i :: 0 <= i < |s| ==> !IsDigit(s[i])
    ensures Stoul(s) == Err(InvalidArgument)
  {
    if |s| > 0 && IsSpace(s[0]) {
      StoulWithoutDigits(s[1..]);
    } else {
      var u := if |s| > 0 && (s[0] == '-' || s[0] == '+') then s[1..] else s;
      assert |u| == 0 || !IsDigit(u[0]);
    }
  }
}

/**
 * What the renderers read from a material (IMaterial): the floating-point
 * channels of its surface colour and its roughness.
 */
module Materials {
  datatype Material = Material(red: real, green: real, blue: real, alpha: real, roughness: real)
}
