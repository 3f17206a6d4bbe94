/**
 * The numeric coercions shared by both parsers (util.go): `atoi`, which reads the whole-number part
 * of a value and falls back to 0, and `parseOptionalInt`, which also reads a dash placeholder as 0.
 */
module Util {
  import opened Wrappers
  import opened Text

  // ---------------------------------------------------------------------------------------------
  // Decimal digits

  function DigitValue(c: char): nat
    requires IsDigit(c)
  {
    c as int - '0' as int
  }

  function DigitChar(d: nat): (c: char)
    requires d < 10
    ensures IsDigit(c) && DigitValue(c) == d
  {
    ('0' as int + d) as char
  }

  /** The number a string of decimal digits denotes, most significant digit first. */
  function DigitsValue(s: string): nat
    requires AllDigits(s)
  {
    if s == [] then 0 else DigitsValue(s[..|s| - 1]) * 10 + DigitValue(s[|s| - 1])
  }

  /** How the daemon prints a counter: decimal, no sign, no leading zeros. */
  function DecimalString(n: nat): (s: string)
    ensures s != [] && AllDigits(s)
    ensures n > 0 ==> s[0] != '0'
  {
    if n < 10 then [DigitChar(n)] else DecimalString(n / 10) + [DigitChar(n % 10)]
  }

  lemma {:induction false} DigitsValueOfDecimal(n: nat)
    ensures DigitsValue(DecimalString(n)) == n
  {
    if n >= 10 {
      DigitsValueOfDecimal(n / 10);
      var s := DecimalString(n);
      assert s[..|s| - 1] == DecimalString(n / 10);
    }
  }

  // ---------------------------------------------------------------------------------------------
  // strconv.Atoi

  /** The syntax `strconv.Atoi` accepts in base 10: an optional sign and at least one digit. */
  predicate IsIntegerSyntax(s: string) {
    && |s| >= 1
    && (IsDigit(s[0]) || ((s[0] == '+' || s[0] == '-') && |s| >= 2))
    && forall k | 1 <= k < |s| :: IsDigit(s[k])
  }

  /** `strconv.Atoi`; None is its syntax error. */
  function StrconvAtoi(s: string): (r: Option<int>)
    ensures r.Some? <==> IsIntegerSyntax(s)
    ensures r.Some? && s[0] != '-' ==> r.value >= 0
    ensures s != [] && AllDigits(s) ==> r == Some(DigitsValue(s))
  {
    if |s| > 0 && (s[0] == '+' || s[0] == '-') then
      if |s| > 1 && AllDigits(s[1..]) then
        var v: int := DigitsValue(s[1..]);
        Some(if s[0] == '-' then -v else v)
      else None
    else if |s| > 0 && AllDigits(s) then Some(DigitsValue(s))
    else None
  }

  // ---------------------------------------------------------------------------------------------
  // atoi and parseOptionalInt

  /** `strings.Split(s, ".")[0]`: the text before the first dot. */
  function BeforeDot(s: string): string {
    SplitOn(s, ".")[0]
  }

  /** util.go's `atoi`: the integer before the first dot, or 0 when that part is not an integer. */
  function Atoi(s: string): int {
    StrconvAtoi(BeforeDot(s)).GetOr(0)
  }

  /** util.go's `parseOptionalInt`: 0 for a token holding a dash unless it is all digits, otherwise `Atoi`. */
  function ParseOptionalInt(s: string): int {
    if Contains(s, "-") && !(|s| > 0 && AllDigits(s)) then 0 else Atoi(s)
  }

  lemma {:induction false} BeforeDotIs(s: string, k: nat)
    requires k <= |s| && '.' !in s[..k] && (k == |s| || s[k] == '.')
    ensures BeforeDot(s) == s[..k]
  {
    if k == |s| {
      assert s[..k] == s;
      IndexOfAbsent(s, ".");
    } else {
      assert OccursAt(s, ".", k) by { assert s[k..k + 1] == [s[k]]; }
      forall j | 0 <= j < k ensures s[j] != '.' {
        assert s[j] == s[..k][j];
      }
      IndexOfFirst(s, ".", k);
    }
  }

  /** Only the text before the first dot is read: a fractional part is dropped, never rounded. */
  lemma {:induction false} AtoiIgnoresFraction(whole: string, fraction: string)
    requires '.' !in whole
    ensures Atoi(whole + "." + fraction) == Atoi(whole)
  {
    var s := whole + "." + fraction;
    assert s[..|whole|] == whole;
    BeforeDotIs(s, |whole|);
    assert whole[..|whole|] == whole;
    BeforeDotIs(whole, |whole|);
  }

  /** A string of digits reads as the number it denotes. */
  lemma {:induction false} AtoiOfDigits(s: string)
    requires s != [] && AllDigits(s)
    ensures Atoi(s) == DigitsValue(s)
  {
    assert '.' !in s by {
      assert forall k | 0 <= k < |s| :: IsDigit(s[k]);
    }
    assert s[..|s|] == s;
    BeforeDotIs(s, |s|);
  }

  /** Reading back a printed counter gives the counter. */
  lemma {:induction false} AtoiOfDecimal(n: nat)
    ensures Atoi(DecimalString(n)) == n
  {
    AtoiOfDigits(DecimalString(n));
    DigitsValueOfDecimal(n);
  }

  /** A printed timer `seconds.fraction` reads as its whole seconds. */
  lemma {:induction false} AtoiTruncatesTimer(seconds: nat, fraction: string)
    ensures Atoi(DecimalString(seconds) + "." + fraction) == seconds
  {
    var w := DecimalString(seconds);
    assert '.' !in w by {
      assert forall k | 0 <= k < |w| :: IsDigit(w[k]);
    }
    AtoiIgnoresFraction(w, fraction);
    AtoiOfDecimal(seconds);
  }

  /** When the text before the first dot is not an integer the error is dropped and the value is 0. */
  lemma {:induction false} AtoiZeroWhenNotInteger(s: string, k: nat)
    requires k <= |s| && '.' !in s[..k] && (k == |s| || s[k] == '.')
    requires !IsIntegerSyntax(s[..k])
    ensures Atoi(s) == 0
  {
    BeforeDotIs(s, k);
  }

  /** The whole-number part of `211.190` is 211. */
  lemma {:induction false} AtoiHoldTimerExample()
    ensures Atoi("211.190") == 211 && Atoi("240") == 240
  {
    assert DecimalString(211) == "211" by {
      assert DecimalString(2) == "2";
      assert DecimalString(21) == "21";
    }
    assert DecimalString(240) == "240" by {
      assert DecimalString(24) == "24";
    }
    assert "211" + "." + "190" == "211.190";
    AtoiTruncatesTimer(211, "190");
    AtoiOfDecimal(240);
  }

  /** A token holding a dash always reads as 0: an all-digit token cannot hold one. */
  lemma {:induction false} ParseOptionalIntDash(s: string)
    requires '-' in s
    ensures ParseOptionalInt(s) == 0
  {
    ContainsCharIff(s, '-');
    var k :| 0 <= k < |s| && s[k] == '-';
    assert !IsDigit(s[k]);
  }

  /** Without a dash the token reads exactly as `Atoi` reads it, which then cannot be negative. */
  lemma {:induction false} ParseOptionalIntNoDash(s: string)
    requires '-' !in s
    ensures ParseOptionalInt(s) == Atoi(s)
    ensures ParseOptionalInt(s) >= 0
  {
    ContainsCharIff(s, '-');
    var p := BeforeDot(s);
    var r := IndexOf(s, ".");
    var k := if r.Some? then r.value else |s|;
    if r.Some? {
      assert s[k..k + 1] == ".";
      assert s[k] == '.';
    }
    forall j | 0 <= j < k ensures s[..k][j] != '.' {
      assert !OccursAt(s, ".", j);
      assert s[j..j + 1] == [s[j]];
    }
    BeforeDotIs(s, k);
    assert p == s[..k];
    assert p != [] ==> p[0] == s[0];
  }

  /** The placeholder `---` reads as 0. */
  lemma {:induction false} ParseOptionalIntPlaceholder()
    ensures ParseOptionalInt("---") == 0
  {
    ParseOptionalIntDash("---");
  }

  /** A printed counter reads back as itself. */
  lemma {:induction false} ParseOptionalIntOfDecimal(n: nat)
    ensures ParseOptionalInt(DecimalString(n)) == n
  {
    var s := DecimalString(n);
    assert '-' !in s by {
      assert forall k | 0 <= k < |s| :: IsDigit(s[k]);
    }
    ParseOptionalIntNoDash(s);
    AtoiOfDecimal(n);
  }
}
