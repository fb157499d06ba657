/**
  The text side of the bill-split calculator: the character filter that the
  bill and custom-tip fields apply on every edit (`replace(/[^0-9.]/g, '')`)
  and the `parseFloat(x) || 0` rule that turns the stored text into an amount.
  Amounts are exact reals; JavaScript numbers that are not finite are the
  `NaN` and `Inf` cases of `Num`.
 */
module AmountInput {

  /**
    A JavaScript number as the calculator sees it. `Inf` stands for both
    infinities, which `!isFinite` treats alike. Amounts here are exact reals,
    so no figure the model computes is ever `NaN` or `Inf`.
   */
  datatype Num = NaN | Inf | Finite(value: real)

  predicate IsDigit(c: char) { '0' <= c <= '9' }

  /** The characters the input filter keeps: `[0-9.]`. */
  predicate IsAmountChar(c: char) { IsDigit(c) || c == '.' }

  /** Text made only of digits and dots, as every stored field is. */
  predicate IsClean(s: string) { forall i :: 0 <= i < |s| ==> IsAmountChar(s[i]) }

  predicate AllDigits(s: string) { forall i :: 0 <= i < |s| ==> IsDigit(s[i]) }

  /** `s.replace(/[^0-9.]/g, '')`: drop every character outside `[0-9.]`. */
  function Filter(s: string): (r: string)
    ensures IsClean(r)
    ensures |r| <= |s|
  {
    if s == [] then []
    else if IsAmountChar(s[0]) then [s[0]] + Filter(s[1..])
    else Filter(s[1..])
  }

  /** The filter keeps every digit and dot, as often as it occurs, and nothing else. */
  lemma {:induction false} FilterContents(s: string)
    ensures forall c :: multiset(Filter(s))[c] == if IsAmountChar(c) then multiset(s)[c] else 0
  {
    if s != [] {
      assert s == [s[0]] + s[1..];
      FilterContents(s[1..]);
    }
  }

  /** The filter changes a text exactly when the text holds a foreign character. */
  lemma {:induction false} FilterFixesClean(s: string)
    ensures Filter(s) == s <==> IsClean(s)
  {
    if s != [] && IsClean(s) {
      assert IsClean(s[1..]) by {
        forall i | 0 <= i < |s[1..]| ensures IsAmountChar(s[1..][i]) { assert s[1..][i] == s[i + 1]; }
      }
      FilterFixesClean(s[1..]);
    }
  }

  /** Editing a field twice with the same text stores the same text. */
  lemma {:induction false} FilterIdempotent(s: string)
    ensures Filter(Filter(s)) == Filter(s)
  {
    FilterFixesClean(Filter(s));
  }

  /** The filter works character by character: it keeps the order of what it keeps. */
  lemma {:induction false} FilterConcat(a: string, b: string)
    ensures Filter(a + b) == Filter(a) + Filter(b)
  {
    if a != [] {
      assert (a + b)[1..] == a[1..] + b;
      FilterConcat(a[1..], b);
    } else {
      assert a + b == b;
    }
  }

  /** Length of the run of digits that starts `s`. */
  function DigitRun(s: string): (k: nat)
    ensures k <= |s|
    ensures AllDigits(s[..k])
    ensures k < |s| ==> !IsDigit(s[k])
  {
    if s != [] && IsDigit(s[0]) then
      var k := 1 + DigitRun(s[1..]);
      assert forall i :: 1 <= i < k ==> s[..k][i] == s[1..][..k - 1][i - 1];
      k
    else 0
  }

  function DigitOf(c: char): (d: nat)
    requires IsDigit(c)
    ensures d <= 9
  {
    c as int - '0' as int
  }

  /** The natural number a string of decimal digits denotes. */
  function DigitsValue(s: string): nat
    requires AllDigits(s)
  {
    if s == [] then 0 else 10 * DigitsValue(s[..|s| - 1]) + DigitOf(s[|s| - 1])
  }

  function Pow10(n: nat): (r: nat)
    ensures r >= 1
  {
    if n == 0 then 1 else 10 * Pow10(n - 1)
  }

  /** The value of the digits after a decimal point: `"05"` is 0.05. */
  function Fraction(digits: string): (f: real)
    requires AllDigits(digits)
    ensures 0.0 <= f
    ensures f == 0.0 <==> DigitsValue(digits) == 0
  {
    DigitsValue(digits) as real / Pow10(|digits|) as real
  }

  predicate NonZeroDigit(c: char) { '1' <= c <= '9' }

  predicate HasNonZeroDigit(s: string) { exists i :: 0 <= i < |s| && NonZeroDigit(s[i]) }

  lemma NonZeroConcat(a: string, b: string)
    ensures HasNonZeroDigit(a + b) <==> HasNonZeroDigit(a) || HasNonZeroDigit(b)
  {
    if HasNonZeroDigit(a + b) {
      var i :| 0 <= i < |a + b| && NonZeroDigit((a + b)[i]);
      if i < |a| { assert a[i] == (a + b)[i]; } else { assert b[i - |a|] == (a + b)[i]; }
    }
    if HasNonZeroDigit(a) {
      var i :| 0 <= i < |a| && NonZeroDigit(a[i]);
      assert (a + b)[i] == a[i];
    }
    if HasNonZeroDigit(b) {
      var i :| 0 <= i < |b| && NonZeroDigit(b[i]);
      assert (a + b)[|a| + i] == b[i];
    }
  }

  /** A string of digits denotes zero exactly when every digit is `'0'`. */
  lemma {:induction false} DigitsValueZero(s: string)
    requires AllDigits(s)
    ensures DigitsValue(s) == 0 <==> !HasNonZeroDigit(s)
  {
    if s != [] {
      var init := s[..|s| - 1];
      assert s == init + [s[|s| - 1]];
      DigitsValueZero(init);
      NonZeroConcat(init, [s[|s| - 1]]);
      assert HasNonZeroDigit([s[|s| - 1]]) <==> NonZeroDigit(s[|s| - 1]) by {
        if NonZeroDigit(s[|s| - 1]) { assert [s[|s| - 1]][0] == s[|s| - 1]; }
      }
    }
  }

  /**
    `parseFloat` on a text of digits and dots: it reads the longest prefix of
    the form `digits[.digits]` and yields `NaN` when that prefix holds no digit.
   */
  function ParseFloat(s: string): (r: Num)
    requires IsClean(s)
    ensures !r.Inf?
    ensures r.NaN? <==> s == [] || (s[0] == '.' && (|s| == 1 || !IsDigit(s[1])))
    ensures r.Finite? ==> r.value >= 0.0
  {
    var k := DigitRun(s);
    var whole := DigitsValue(s[..k]) as real;
    if k < |s| then
      // s[k] is a dot: the filter leaves nothing else that stops a digit run
      var m := DigitRun(s[k + 1..]);
      assert k == 0 ==> s[k + 1..] == s[1..];
      if k + m == 0 then NaN
      else Finite(whole + Fraction(s[k + 1..][..m]))
    else if k == 0 then NaN
    else Finite(whole)
  }

  /** Length of the prefix `parseFloat` reads: `digits[.digits]`, or a lone leading dot. */
  function NumberLength(s: string): (n: nat)
    requires IsClean(s)
    ensures n <= |s|
  {
    var k := DigitRun(s);
    if k < |s| then k + 1 + DigitRun(s[k + 1..]) else k
  }

  /** `parseFloat(x) || 0`: the amount a stored text stands for, zero when it does not parse. */
  function ParseAmount(s: string): (r: real)
    requires IsClean(s)
    ensures r >= 0.0
    ensures ParseFloat(s).NaN? ==> r == 0.0
    ensures s == [] || s == "." ==> r == 0.0
  {
    if ParseFloat(s).Finite? then ParseFloat(s).value else 0.0
  }

  /** A stored text reads as zero exactly when the prefix `parseFloat` reads has no digit 1 to 9. */
  lemma ParseAmountZero(s: string)
    requires IsClean(s)
    ensures ParseAmount(s) == 0.0 <==> !HasNonZeroDigit(s[..NumberLength(s)])
  {
    var k := DigitRun(s);
    var whole := s[..k];
    DigitsValueZero(whole);
    if k < |s| {
      var t := s[k + 1..];
      var m := DigitRun(t);
      var frac := t[..m];
      DigitsValueZero(frac);
      assert s[..NumberLength(s)] == whole + "." + frac;
      NonZeroConcat(whole, ".");
      NonZeroConcat(whole + ".", frac);
      assert !HasNonZeroDigit(".");
      if k + m != 0 {
        assert ParseFloat(s) == Finite(DigitsValue(whole) as real + Fraction(frac));
      }
    } else {
      assert s[..NumberLength(s)] == whole;
    }
  }

  /** A text of digits alone parses to the whole number it spells. */
  lemma DigitsParse(s: string)
    requires s != [] && AllDigits(s)
    ensures ParseAmount(s) == DigitsValue(s) as real
  {
    assert s[..|s|] == s;
  }

  /** Typing one more digit after a whole number shifts it one decimal place. */
  lemma AppendDigit(s: string, d: char)
    requires s != [] && AllDigits(s) && IsDigit(d)
    ensures ParseAmount(s + [d]) == 10.0 * ParseAmount(s) + DigitOf(d) as real
  {
    var t := s + [d];
    assert t[..|t| - 1] == s;
    DigitsParse(s);
    DigitsParse(t);
  }

  /**
    A digit run is determined by where the digits stop. `DigitRun`'s contract
    already implies this, but without the explicit induction the solver does
    not find the proof on every random seed.
   */
  lemma {:induction false} DigitRunIs(s: string, k: nat)
    requires k <= |s| && AllDigits(s[..k]) && (k < |s| ==> !IsDigit(s[k]))
    ensures DigitRun(s) == k
  {
    if k > 0 {
      assert IsDigit(s[..k][0]);
      var rest := s[1..][..k - 1];
      assert AllDigits(rest) by {
        forall i | 0 <= i < |rest| ensures IsDigit(rest[i]) { assert rest[i] == s[..k][i + 1]; }
      }
      DigitRunIs(s[1..], k - 1);
    }
  }

  /**
    A text `whole.frac` followed by anything that starts with another dot is
    read as `whole + 0.frac`: everything from the second dot on is ignored.
   */
  lemma DecimalParse(whole: string, frac: string, rest: string)
    requires AllDigits(whole) && AllDigits(frac) && whole + frac != []
    requires IsClean(rest) && (rest == [] || rest[0] == '.')
    ensures IsClean(whole + "." + frac + rest)
    ensures ParseAmount(whole + "." + frac + rest) == DigitsValue(whole) as real + Fraction(frac)
  {
    var s := whole + "." + frac + rest;
    assert IsClean(s) by {
      forall i | 0 <= i < |s| ensures IsAmountChar(s[i]) {
        if i < |whole| { assert s[i] == whole[i]; }
        else if i == |whole| { assert s[i] == '.'; }
        else if i < |whole| + 1 + |frac| { assert s[i] == frac[i - |whole| - 1]; }
        else { assert s[i] == rest[i - |whole| - 1 - |frac|]; }
      }
    }
    assert s[..|whole|] == whole;
    assert s[|whole|] == '.';
    DigitRunIs(s, |whole|);
    var t := s[|whole| + 1..];
    assert t == frac + rest;
    assert t[..|frac|] == frac;
    if |frac| < |t| { assert t[|frac|] == rest[0]; }
    DigitRunIs(t, |frac|);
  }

  /** Only the first dot counts: `"12.3.4"` is read as 12.3. */
  lemma SecondDotIgnored()
    ensures IsClean("12.3.4") && ParseAmount("12.3.4") == 12.3
  {
    DecimalParse("12", "3", ".4");
    assert "12" + "." + "3" + ".4" == "12.3.4";
    assert "12"[..1] == "1" && DigitsValue("12") == 12;
    assert "3"[..0] == "" && DigitsValue("3") == 3;
    assert Pow10(1) == 10;
    assert Fraction("3") == 0.3;
  }
}
