/**
 * The stake-amount text field of the staking panel: the keystroke filter of
 * `handleStakeAmountChange` and the positivity test `parseFloat(amount) <= 0`
 * that guards `handleStake` and disables the stake button.
 */
module StakeAmount {
  import opened JsValues

  /** Decimals of pSAGA: the filter accepts at most this many digits after the point. */
  const MaxFractionDigits: nat := 6

  predicate IsDigit(c: char) {
    '0' <= c <= '9'
  }

  /** The characters that survive `/[^0-9.]/g`. */
  predicate IsAmountChar(c: char) {
    IsDigit(c) || c == '.'
  }

  predicate AllAmountChars(s: string) {
    forall i :: 0 <= i < |s| ==> IsAmountChar(s[i])
  }

  /**
   * `value.replace(/[^0-9.]/g, '')`: keeps the digits and points of `s`, in
   * order, and drops every other character.
   */
  function Sanitize(s: string): (r: string)
    ensures AllAmountChars(r)
    ensures forall c :: multiset(r)[c] == if IsAmountChar(c) then multiset(s)[c] else 0
  {
    if s == [] then []
    else
      assert s == [s[0]] + s[1..];
      if IsAmountChar(s[0]) then [s[0]] + Sanitize(s[1..]) else Sanitize(s[1..])
  }

  /** The filter works character by character: it distributes over concatenation. */
  lemma {:induction false} SanitizeAppend(a: string, b: string)
    ensures Sanitize(a + b) == Sanitize(a) + Sanitize(b)
  {
    if a == [] {
      assert a + b == b;
    } else {
      assert (a + b)[0] == a[0] && (a + b)[1..] == a[1..] + b;
      SanitizeAppend(a[1..], b);
    }
  }

  /** A string of digits and points passes the filter untouched. */
  lemma {:induction false} SanitizeKeepsAmountStrings(s: string)
    requires AllAmountChars(s)
    ensures Sanitize(s) == s
  {
    if s != [] {
      SanitizeKeepsAmountStrings(s[1..]);
    }
  }

  /** Filtering twice is filtering once. */
  lemma SanitizeIdempotent(s: string)
    ensures Sanitize(Sanitize(s)) == Sanitize(s)
  {
    SanitizeKeepsAmountStrings(Sanitize(s));
  }

  /**
   * `s.split(sep)`: the pieces between the separators, so one more piece
   * than there are separators.
   */
  function Split(s: string, sep: char): (parts: seq<string>)
    ensures |parts| == multiset(s)[sep] + 1
  {
    if s == [] then [[]]
    else
      var rest := Split(s[1..], sep);
      assert s == [s[0]] + s[1..];
      if s[0] == sep then [[]] + rest else [[s[0]] + rest[0]] + rest[1..]
  }

  /** `parts.join(sep)`. */
  function Join(parts: seq<string>, sep: char): string {
    if parts == [] then []
    else if |parts| == 1 then parts[0]
    else parts[0] + [sep] + Join(parts[1..], sep)
  }

  /** Splitting loses nothing: joining the pieces gives the string back. */
  lemma {:induction false} JoinSplit(s: string, sep: char)
    ensures Join(Split(s, sep), sep) == s
  {
    if s != [] {
      var rest := Split(s[1..], sep);
      JoinSplit(s[1..], sep);
      assert s == [s[0]] + s[1..];
      if s[0] == sep {
        var parts := [[]] + rest;
        assert Split(s, sep) == parts;
        assert parts[1..] == rest;
        assert Join(parts, sep) == [] + [sep] + Join(rest, sep);
      } else if |rest| == 1 {
        assert Split(s, sep) == [[s[0]] + rest[0]];
        assert Join(rest, sep) == rest[0];
      } else {
        var parts := [[s[0]] + rest[0]] + rest[1..];
        assert Split(s, sep) == parts;
        assert parts[1..] == rest[1..];
        assert Join(parts, sep) == ([s[0]] + rest[0]) + [sep] + Join(rest[1..], sep);
        assert Join(rest, sep) == rest[0] + [sep] + Join(rest[1..], sep);
      }
    }
  }

  /** No piece holds a separator; with `JoinSplit` this pins the split down. */
  lemma {:induction false} SplitPiecesAreSeparatorFree(s: string, sep: char)
    ensures forall i :: 0 <= i < |Split(s, sep)| ==> sep !in Split(s, sep)[i]
  {
    if s != [] {
      SplitPiecesAreSeparatorFree(s[1..], sep);
      var rest := Split(s[1..], sep);
      if s[0] != sep {
        assert sep !in [s[0]] + rest[0];
      }
    }
  }

  lemma {:induction false} SplitWithoutSeparator(s: string, sep: char)
    requires multiset(s)[sep] == 0
    ensures Split(s, sep) == [s]
  {
    if s != [] {
      assert s == [s[0]] + s[1..];
      SplitWithoutSeparator(s[1..], sep);
    }
  }

  /** The characters after the first point; empty when there is none. */
  function Fraction(s: string): string {
    if s == [] then []
    else if s[0] == '.' then s[1..]
    else Fraction(s[1..])
  }

  /** With a single point, the second piece of the split is the fraction. */
  lemma {:induction false} SplitAtOnlyPoint(s: string)
    requires multiset(s)['.'] == 1
    ensures Split(s, '.')[1] == Fraction(s)
  {
    assert s == [s[0]] + s[1..];
    if s[0] == '.' {
      SplitWithoutSeparator(s[1..], '.');
    } else {
      SplitAtOnlyPoint(s[1..]);
    }
  }

  /**
   * The invariant of the field: digits and points only, at most one point,
   * at most six digits after it.
   */
  predicate WellFormed(s: string) {
    AllAmountChars(s) && multiset(s)['.'] <= 1 && |Fraction(s)| <= MaxFractionDigits
  }

  /** The two early returns of the keystroke handler, on the filtered value. */
  predicate PassesPointChecks(value: string) {
    var parts := Split(value, '.');
    !(|parts| > 2) && !(|parts| == 2 && |parts[1]| > MaxFractionDigits)
  }

  /**
   * The split-based checks accept exactly the strings with at most one point
   * and at most six digits after it.
   */
  lemma PassesPointChecksExactly(value: string)
    ensures PassesPointChecks(value) <==>
      multiset(value)['.'] <= 1 && |Fraction(value)| <= MaxFractionDigits
  {
    if multiset(value)['.'] == 1 {
      SplitAtOnlyPoint(value);
    } else if multiset(value)['.'] == 0 {
      SplitWithoutSeparator(value, '.');
      FractionWithoutPoint(value);
    }
  }

  lemma {:induction false} FractionWithoutPoint(s: string)
    requires multiset(s)['.'] == 0
    ensures Fraction(s) == []
  {
    if s != [] {
      assert s == [s[0]] + s[1..];
      FractionWithoutPoint(s[1..]);
    }
  }

  /**
   * What a keystroke does to the field: the filtered value is taken when it
   * passes both checks, which happens exactly when it is well-formed;
   * otherwise the field keeps its old text.
   */
  function AfterKeystroke(current: string, raw: string): (r: string)
    ensures r == if WellFormed(Sanitize(raw)) then Sanitize(raw) else current
    ensures WellFormed(current) ==> WellFormed(r)
  {
    var value := Sanitize(raw);
    PassesPointChecksExactly(value);
    if PassesPointChecks(value) then value else current
  }

  predicate HasDigit(s: string) {
    exists i :: 0 <= i < |s| && IsDigit(s[i])
  }

  predicate DigitsAllZero(s: string) {
    forall i :: 0 <= i < |s| && IsDigit(s[i]) ==> s[i] == '0'
  }

  /** An exact decimal number `mantissa / 10^scale`. */
  datatype Decimal = Decimal(mantissa: nat, scale: nat)

  /** The integer spelled by the digits of `s`, the point skipped. */
  function DigitValue(s: string): nat {
    if s == [] then 0
    else
      var last := s[|s| - 1];
      if IsDigit(last) then DigitValue(s[..|s| - 1]) * 10 + (last as int - '0' as int)
      else DigitValue(s[..|s| - 1])
  }

  lemma {:induction false} DigitValueZero(s: string)
    ensures DigitValue(s) == 0 <==> DigitsAllZero(s)
  {
    if s != [] {
      var p, last := s[..|s| - 1], s[|s| - 1];
      DigitValueZero(p);
      assert forall i :: 0 <= i < |p| ==> p[i] == s[i];
      if DigitsAllZero(s) {
        assert forall i :: 0 <= i < |p| && IsDigit(p[i]) ==> p[i] == '0' by {
          forall i | 0 <= i < |p| && IsDigit(p[i]) ensures p[i] == '0' {
            assert IsDigit(s[i]);
          }
        }
      }
    }
  }

  /**
   * `parseFloat(s)` on a well-formed amount: NaN (`None`) when `s` holds no
   * digit (`""`, `"."`), otherwise the number its digits spell with the
   * point in place. With at most six fractional digits, rounding to a
   * double never changes the sign of that number.
   */
  function ParseAmount(s: string): (d: Option<Decimal>)
    requires WellFormed(s)
    ensures d.None? <==> !HasDigit(s)
    ensures d.Some? ==> d.value.scale <= MaxFractionDigits
  {
    if HasDigit(s) then Some(Decimal(DigitValue(s), |Fraction(s)|)) else None
  }

  /** `parseFloat(s) <= 0`: false for NaN, and a decimal is at most zero exactly when its mantissa is zero. */
  predicate ParsesNonPositive(s: string)
    requires WellFormed(s)
  {
    match ParseAmount(s)
    case None => false
    case Some(d) => d.mantissa == 0
  }

  /**
   * The guard rejects a well-formed amount exactly when it has a digit and
   * every digit is `0`; `""` and `"."` get through.
   */
  lemma ParsesNonPositiveExactly(s: string)
    requires WellFormed(s)
    ensures ParsesNonPositive(s) <==> HasDigit(s) && DigitsAllZero(s)
  {
    DigitValueZero(s);
  }

  /**
   * parseFloat gives NaN for a field holding no digit, and NaN is not
   * `<= 0`: the empty field and a lone point get past the guard.
   */
  lemma NoDigitPassesGuard()
    ensures WellFormed("") && !ParsesNonPositive("")
    ensures WellFormed(".") && !ParsesNonPositive(".")
  {
    assert Fraction(".") == [];
    assert !HasDigit(".") by { assert !IsDigit("."[0]); }
  }
}
