/**
 * The payout account-number check (ValidateAccountNumberValidator).
 *
 * An account number is rejected when it starts with one of the reserved
 * prefixes "840" or "150"; otherwise its last two characters must be the
 * ISO/IEC 7064 MOD 97-10 check value of everything before them, written with
 * two digits.
 */
module AccountNumber {

  import opened Strings

  // ---------------------------------------------------------------------
  // Characters and decimal values
  // ---------------------------------------------------------------------

  predicate IsDigit(c: char) {
    '0' <= c <= '9'
  }

  /** PHP `(int)` applied to a one-character string: the digit's value, 0 for any other character. */
  function DigitValue(c: char): (d: nat)
    ensures d <= 9
    ensures IsDigit(c) ==> c as int == '0' as int + d
    ensures !IsDigit(c) ==> d == 0
  {
    if IsDigit(c) then (c as int - '0' as int) else 0
  }

  function DigitChar(d: nat): (c: char)
    requires d <= 9
    ensures IsDigit(c) && DigitValue(c) == d
  {
    ('0' as int + d) as char
  }

  function Pow10(k: nat): (p: nat)
    ensures p >= 1
  {
    if k == 0 then 1 else 10 * Pow10(k - 1)
  }

  /** The decimal value of `s`, most significant character first, every character read by DigitValue. */
  function NumValue(s: string): (n: nat)
    ensures n < Pow10(|s|)
  {
    if s == [] then 0
    else
      PlaceValueBound(DigitValue(s[0]), Pow10(|s| - 1), NumValue(s[1..]));
      DigitValue(s[0]) * Pow10(|s| - 1) + NumValue(s[1..])
  }

  /** A digit in front of a number below `p`, weighted by `p`, stays below `10 * p`. */
  lemma PlaceValueBound(d: nat, p: nat, rest: nat)
    requires d <= 9 && rest < p
    ensures d * p + rest < 10 * p
  {
    assert d * p + rest < (d + 1) * p;
  }

  /** PHP `(string) n` for a natural number: its decimal digits without leading zeros. */
  function DecimalString(n: nat): (s: string)
    ensures 1 <= |s|
    ensures forall i :: 0 <= i < |s| ==> IsDigit(s[i])
  {
    if n < 10 then [DigitChar(n)] else DecimalString(n / 10) + [DigitChar(n % 10)]
  }

  /** Appending a digit shifts the value one place and adds the digit. */
  lemma {:induction false} NumValueSnoc(t: string, c: char)
    ensures NumValue(t + [c]) == 10 * NumValue(t) + DigitValue(c)
    decreases |t|
  {
    if t != [] {
      var u := t + [c];
      assert u[0] == t[0] && u[1..] == t[1..] + [c];
      NumValueSnoc(t[1..], c);
      var d, p, a := DigitValue(t[0]), Pow10(|t| - 1), NumValue(t[1..]);
      assert NumValue(u) == d * Pow10(|u| - 1) + NumValue(u[1..]);
      assert Pow10(|u| - 1) == 10 * p;
      ShiftedPlace(d, p, a, DigitValue(c));
    }
  }

  lemma ShiftedPlace(d: int, p: int, a: int, e: int)
    ensures d * (10 * p) + (10 * a + e) == 10 * (d * p + a) + e
  {
  }

  /** The decimal string of `n` has no leading zero and reads back as `n`. */
  lemma {:induction false} DecimalStringReadsBack(n: nat)
    ensures var s := DecimalString(n); (|s| == 1 || s[0] != '0') && NumValue(s) == n
    decreases n
  {
    if n >= 10 {
      DecimalStringReadsBack(n / 10);
      NumValueSnoc(DecimalString(n / 10), DigitChar(n % 10));
    }
  }

  /** PHP `str_pad(s, width, pad, STR_PAD_LEFT)`. */
  function PadLeft(s: string, width: nat, pad: char): (r: string)
    ensures |r| == if |s| >= width then |s| else width
    ensures r[|r| - |s|..] == s
    ensures forall i :: 0 <= i < |r| - |s| ==> r[i] == pad
  {
    if |s| >= width then s else seq(width - |s|, _ => pad) + s
  }

  /** PHP `substr(s, 0, -2)`: everything but the last two characters (empty when there are at most two). */
  function Body(s: string): (b: string)
    ensures |b| == if |s| >= 2 then |s| - 2 else 0
    ensures b + Tail(s) == s
  {
    if |s| >= 2 then s[..|s| - 2] else ""
  }

  /** PHP `substr(s, -2)`: the last two characters, or all of `s` when it is shorter. */
  function Tail(s: string): (t: string)
    ensures |t| == if |s| >= 2 then 2 else |s|
    ensures t == s[|s| - |t|..]
  {
    if |s| >= 2 then s[|s| - 2..] else s
  }

  // ---------------------------------------------------------------------
  // The check value and the validity predicate
  // ---------------------------------------------------------------------

  /** The MOD 97-10 check value of `s`: 98 - (100 * N mod 97), N the value of `s`. */
  function CheckValue(s: string): (v: int)
    ensures 2 <= v <= 98
  {
    98 - (100 * NumValue(s)) % 97
  }

  /** The check value of all but the last two characters, left-padded with '0' to width 2, equals those two characters. */
  predicate ChecksumMatches(s: string) {
    PadLeft(DecimalString(CheckValue(Body(s))), 2, '0') == Tail(s)
  }

  predicate HasReservedPrefix(s: string) {
    StartsWith(s, "840") || StartsWith(s, "150")
  }

  predicate IsValidAccountNumber(s: string) {
    !HasReservedPrefix(s) && ChecksumMatches(s)
  }

  // ---------------------------------------------------------------------
  // The validator's operations
  // ---------------------------------------------------------------------

  /** The check-value loop: walks the characters right to left, keeping the
      running remainder and the weight of the next position modulo 97. */
  method Mod97(s: string) returns (checkValue: int)
    ensures checkValue == 98 - (100 * NumValue(s)) % 97
    ensures 2 <= checkValue <= 98
  {
    var controlNumber: int := 0;
    var base: int := 100;
    var x := |s| - 1;
    while x >= 0
      invariant -1 <= x < |s|
      invariant 0 <= controlNumber < 97
      invariant 0 <= base <= 100
      invariant base % 97 == (100 * Pow10(|s| - 1 - x)) % 97
      invariant controlNumber == (100 * NumValue(s[x + 1..])) % 97
    {
      var num: int := DigitValue(s[x]);
      Mod97Step(s, x, controlNumber, base);
      controlNumber := (controlNumber + base * num) % 97;
      base := (base * 10) % 97;
      x := x - 1;
    }
    assert s[x + 1..] == s;
    checkValue := 98 - controlNumber;
  }

  /** `validateAccountNumber`: compares the padded check value with the last two characters. */
  method ValidateAccountNumber(accountNumber: string) returns (ok: bool)
    ensures ok <==> ChecksumMatches(accountNumber)
  {
    var controlNumber := Mod97(Body(accountNumber));
    ok := PadLeft(DecimalString(controlNumber), 2, '0') == Tail(accountNumber);
  }

  /** `isValid`: the reserved prefixes first, then the checksum. */
  method IsValid(accountNumber: string) returns (ok: bool)
    ensures ok <==> IsValidAccountNumber(accountNumber)
  {
    if StartsWith(accountNumber, "840") {
      return false;
    }
    if StartsWith(accountNumber, "150") {
      return false;
    }
    ok := ValidateAccountNumber(accountNumber);
  }

  // ---------------------------------------------------------------------
  // The constraint validator and the violations it reports
  // ---------------------------------------------------------------------

  /** The value handed to the validator: null, a string, or a value of another type. */
  datatype Value = Null | Str(s: string) | NonString

  /** The constraint the validator is called with; only ValidateAccountNumber is accepted. */
  datatype Constraint = ValidateAccountNumberConstraint(message: string) | OtherConstraint

  datatype Outcome = Checked | UnexpectedType

  /** The execution context's list of violations built so far. */
  class ExecutionContext {
    var violations: seq<string>

    constructor ()
      ensures violations == []
    {
      violations := [];
    }
  }

  class ValidateAccountNumberValidator {
    const context: ExecutionContext

    constructor (context: ExecutionContext)
      ensures this.context == context
    {
      this.context := context;
    }

    /** `validate`: an UnexpectedTypeException for a foreign constraint; no
        violation for null; one violation for a non-string or the empty string;
        otherwise one violation exactly when the number is not valid. */
    method Validate(value: Value, constraint: Constraint) returns (outcome: Outcome)
      modifies context
      ensures constraint.OtherConstraint? ==> outcome == UnexpectedType && context.violations == old(context.violations)
      ensures constraint.ValidateAccountNumberConstraint? ==> outcome == Checked
      ensures constraint.ValidateAccountNumberConstraint? ==>
        context.violations == old(context.violations) +
          (if value.Null? then []
           else if value.NonString? || value.s == "" then [constraint.message]
           else if IsValidAccountNumber(value.s) then []
           else [constraint.message])
    {
      if constraint.OtherConstraint? {
        return UnexpectedType;
      }
      outcome := Checked;
      if value.Null? {
        return;
      }
      if value.NonString? || value.s == "" {
        context.violations := context.violations + [constraint.message];
        return;
      }
      var ok := IsValid(value.s);
      if !ok {
        context.violations := context.violations + [constraint.message];
      }
    }
  }

  // ---------------------------------------------------------------------
  // Arithmetic behind the loop
  // ---------------------------------------------------------------------

  lemma NumValueCons(s: string, x: int)
    requires 0 <= x < |s|
    ensures NumValue(s[x..]) == DigitValue(s[x]) * Pow10(|s| - 1 - x) + NumValue(s[x + 1..])
  {
    assert s[x..][0] == s[x];
    assert s[x..][1..] == s[x + 1..];
  }

  /** Congruent values modulo 97 differ by a multiple of 97. */
  lemma Congruent(x: int, y: int)
    requires x % 97 == y % 97
    ensures x == y + 97 * (x / 97 - y / 97)
  {
  }

  /** Adding a multiple of 97 keeps the remainder. */
  lemma ShiftByMultiple(x: int, k: int)
    ensures (x + 97 * k) % 97 == x % 97
  {
  }

  lemma ScaleEquation(b: int, w: int, k: int, d: int)
    requires b == w + 97 * k
    ensures b * d == w * d + 97 * (k * d)
  {
  }

  /** One loop step keeps the running remainder equal to 100 * (value of the processed suffix) mod 97. */
  lemma StepRemainder(c: int, b: int, d: nat, n: nat, p: nat)
    requires c == (100 * n) % 97
    requires b % 97 == (100 * p) % 97
    ensures (c + b * d) % 97 == (100 * (d * p + n)) % 97
  {
    var k := b / 97 - (100 * p) / 97;
    Congruent(b, 100 * p);
    ScaleEquation(b, 100 * p, k, d);
    var q := (100 * n) / 97;
    assert c == 100 * n - 97 * q;
    assert 100 * p * d + 100 * n == 100 * (d * p + n);
    assert c + b * d == 100 * (d * p + n) + 97 * (k * d - q);
    ShiftByMultiple(100 * (d * p + n), k * d - q);
  }

  lemma TimesTenRemainder(b: int, w: int)
    requires b % 97 == w % 97
    ensures (b * 10) % 97 == (w * 10) % 97
  {
    var k := b / 97 - w / 97;
    Congruent(b, w);
    assert b * 10 == w * 10 + 97 * (10 * k);
    ShiftByMultiple(w * 10, 10 * k);
  }

  /** The loop invariant of Mod97 carries from position x to position x - 1. */
  lemma Mod97Step(s: string, x: int, controlNumber: int, base: int)
    requires 0 <= x < |s|
    requires base % 97 == (100 * Pow10(|s| - 1 - x)) % 97
    requires controlNumber == (100 * NumValue(s[x + 1..])) % 97
    ensures (base * 10) % 97 == (100 * Pow10(|s| - 1 - (x - 1))) % 97
    ensures (controlNumber + base * DigitValue(s[x])) % 97 == (100 * NumValue(s[x..])) % 97
  {
    var k := |s| - 1 - x;
    NumValueCons(s, x);
    StepRemainder(controlNumber, base, DigitValue(s[x]), NumValue(s[x + 1..]), Pow10(k));
    TimesTenRemainder(base, 100 * Pow10(k));
    assert Pow10(k + 1) == 10 * Pow10(k);
    assert 100 * Pow10(k) * 10 == 100 * Pow10(k + 1);
  }

  // ---------------------------------------------------------------------
  // Properties of the check
  // ---------------------------------------------------------------------

  /** The check value is the ISO/IEC 7064 MOD 97-10 one: appending it as two
      digits makes 100 * N + check value congruent to 1 modulo 97. */
  lemma CheckValueIsMod97_10(s: string)
    ensures (100 * NumValue(s) + CheckValue(s)) % 97 == 1
  {
  }

  /** Writing a value below 100 with PadLeft(DecimalString(_), 2, '0') gives its tens and units digits. */
  lemma {:induction false} TwoDigits(n: nat)
    requires n < 100
    ensures PadLeft(DecimalString(n), 2, '0') == [DigitChar(n / 10), DigitChar(n % 10)]
  {
    if n >= 10 {
      assert DecimalString(n / 10) == [DigitChar(n / 10)];
    }
  }

  /** The two characters a check value below 100 is written as. */
  function TwoDigitString(v: nat): (r: string)
    requires v < 100
    ensures |r| == 2 && IsDigit(r[0]) && IsDigit(r[1])
    ensures 10 * DigitValue(r[0]) + DigitValue(r[1]) == v
  {
    [DigitChar(v / 10), DigitChar(v % 10)]
  }

  /** The checksum holds exactly when the last two characters spell the check value of the rest. */
  lemma ChecksumMatchesTail(s: string)
    ensures ChecksumMatches(s) <==> Tail(s) == TwoDigitString(CheckValue(Body(s)))
  {
    TwoDigits(CheckValue(Body(s)));
  }

  /** Two digits spell one value only. */
  lemma TwoDigitStringInjective(v: nat, w: nat)
    requires v < 100 && w < 100
    requires TwoDigitString(v) == TwoDigitString(w)
    ensures v == w
  {
    var a, b := TwoDigitString(v), TwoDigitString(w);
    assert a[0] == b[0] && a[1] == b[1];
  }

  /** The checksum holds exactly when the last two characters are digits whose value is the check value of the rest. */
  lemma ChecksumMatchesIff(s: string)
    ensures ChecksumMatches(s) <==>
      && |s| >= 2
      && IsDigit(s[|s| - 2]) && IsDigit(s[|s| - 1])
      && 10 * DigitValue(s[|s| - 2]) + DigitValue(s[|s| - 1]) == CheckValue(Body(s))
  {
    var v := CheckValue(Body(s));
    ChecksumMatchesTail(s);
    if ChecksumMatches(s) {
      var t := Tail(s);
      assert |t| == 2;
      assert t[0] == s[|s| - 2] && t[1] == s[|s| - 1];
    }
    if && |s| >= 2
       && IsDigit(s[|s| - 2]) && IsDigit(s[|s| - 1])
       && 10 * DigitValue(s[|s| - 2]) + DigitValue(s[|s| - 1]) == v
    {
      DigitsSpellValue(s[|s| - 2], s[|s| - 1], v);
      assert Tail(s) == [s[|s| - 2], s[|s| - 1]];
    }
  }

  lemma DigitsSpellValue(a: char, b: char, v: nat)
    requires IsDigit(a) && IsDigit(b) && 10 * DigitValue(a) + DigitValue(b) == v
    ensures v < 100 && TwoDigitString(v) == [a, b]
  {
    assert DigitValue(a) == v / 10 && DigitValue(b) == v % 10;
    DigitRoundTrip(a);
    DigitRoundTrip(b);
  }

  lemma DigitRoundTrip(c: char)
    requires IsDigit(c)
    ensures DigitChar(DigitValue(c)) == c
  {
  }

  /** Any number starting with "840" or "150" is rejected whatever follows. */
  lemma ReservedPrefixRejected(rest: string)
    ensures !IsValidAccountNumber("840" + rest)
    ensures !IsValidAccountNumber("150" + rest)
  {
    assert ("840" + rest)[..3] == "840";
    assert ("150" + rest)[..3] == "150";
  }

  /** The check value lies in [2, 98], so a number ending in "00", "01" or "99" never passes. */
  lemma ImpossibleEndingsRejected(s: string)
    requires |s| >= 2
    requires s[|s| - 2..] == "00" || s[|s| - 2..] == "01" || s[|s| - 2..] == "99"
    ensures !ChecksumMatches(s)
  {
    ChecksumMatchesIff(s);
    assert s[|s| - 2] == s[|s| - 2..][0] && s[|s| - 1] == s[|s| - 2..][1];
  }

  lemma {:induction false} NonDigitsReadAsZero(b: string)
    requires forall i :: 0 <= i < |b| ==> !IsDigit(b[i])
    ensures NumValue(b) == 0
    decreases |b|
  {
    if b != [] {
      assert forall i :: 0 <= i < |b[1..]| ==> b[1..][i] == b[i + 1];
      NonDigitsReadAsZero(b[1..]);
    }
  }

  /** Neither the length nor the characters of the body are checked: a body
      without digits (the empty one included) reads as 0, so it passes with "98". */
  lemma NonDigitBodyPasses(b: string)
    requires forall i :: 0 <= i < |b| ==> !IsDigit(b[i])
    ensures ChecksumMatches(b + "98")
  {
    var s := b + "98";
    assert Body(s) == b && Tail(s) == "98";
    NonDigitsReadAsZero(b);
    ChecksumMatchesTail(s);
    assert TwoDigitString(98) == "98";
  }

  /** Strings shorter than two characters never pass the checksum. */
  lemma ShortNumbersRejected(s: string)
    requires |s| < 2
    ensures !IsValidAccountNumber(s)
  {
    ChecksumMatchesIff(s);
  }

  // ---------------------------------------------------------------------
  // Single-character errors are detected
  // ---------------------------------------------------------------------

  /** Changing the character at position `i` changes the value by the digit difference times its weight. */
  lemma {:induction false} NumValueChange(s: string, t: string, i: nat)
    requires |s| == |t| && i < |s|
    requires forall j :: 0 <= j < |s| && j != i ==> s[j] == t[j]
    ensures NumValue(t) - NumValue(s) == (DigitValue(t[i]) - DigitValue(s[i])) * Pow10(|s| - 1 - i)
  {
    var p := Pow10(|s| - 1);
    if i == 0 {
      assert s[1..] == t[1..];
      var a, b, r := DigitValue(t[0]), DigitValue(s[0]), NumValue(s[1..]);
      assert NumValue(t) == a * p + r && NumValue(s) == b * p + r;
      Distribute(a, b, p, r);
    } else {
      NumValueChange(s[1..], t[1..], i - 1);
      assert s[1..][i - 1] == s[i] && t[1..][i - 1] == t[i];
      assert s[0] == t[0];
      assert NumValue(t) - NumValue(s) == NumValue(t[1..]) - NumValue(s[1..]);
    }
  }

  lemma Distribute(a: int, b: int, p: int, r: int)
    ensures (a * p + r) - (b * p + r) == (a - b) * p
  {
  }

  /** 10 has an inverse modulo 97 (10 * 68 = 7 * 97 + 1), so 97 divides 10 * x only when it divides x. */
  lemma TenCancels(x: int)
    requires (10 * x) % 97 == 0
    ensures x % 97 == 0
  {
    var q := (10 * x) / 97;
    assert 10 * x == 97 * q;
    assert x == 68 * (10 * x) - 679 * x;
    assert x == 97 * (68 * q - 7 * x);
  }

  /** 97 does not divide 100 * d for a non-zero digit difference d. */
  lemma HundredTimesDigitDifference(d: int)
    requires -9 <= d <= 9 && d != 0
    ensures (100 * d) % 97 != 0
  {
    ShiftByMultiple(3 * d, d);
    assert 100 * d == 3 * d + 97 * d;
  }

  /** 97 does not divide 100 * d * 10^k for a non-zero digit difference d. */
  lemma {:induction false} WeightedDifferenceNonZero(d: int, k: nat)
    requires -9 <= d <= 9 && d != 0
    ensures (100 * (d * Pow10(k))) % 97 != 0
  {
    if k == 0 {
      HundredTimesDigitDifference(d);
    } else {
      var p := Pow10(k - 1);
      var prev := 100 * (d * p);
      WeightedDifferenceNonZero(d, k - 1);
      assert Pow10(k) == 10 * p;
      assert d * (10 * p) == 10 * (d * p);
      assert 100 * (d * Pow10(k)) == 10 * prev;
      if (10 * prev) % 97 == 0 {
        TenCancels(prev);
      }
    }
  }

  /** Adding a multiple-free amount moves a remainder modulo 97. */
  lemma ShiftChangesRemainder(x: int, e: int)
    requires e % 97 != 0
    ensures (x + e) % 97 != x % 97
  {
  }

  /** Changing one digit of a body changes its check value. */
  lemma BodyChangeMovesCheckValue(bs: string, bt: string, i: nat)
    requires |bs| == |bt| && i < |bs|
    requires forall j :: 0 <= j < |bs| && j != i ==> bs[j] == bt[j]
    requires DigitValue(bs[i]) != DigitValue(bt[i])
    ensures CheckValue(bs) != CheckValue(bt)
  {
    NumValueChange(bs, bt, i);
    var d := DigitValue(bt[i]) - DigitValue(bs[i]);
    var w := Pow10(|bs| - 1 - i);
    WeightedDifferenceNonZero(d, |bs| - 1 - i);
    var n := NumValue(bs);
    assert NumValue(bt) == n + d * w;
    assert 100 * NumValue(bt) == 100 * n + 100 * (d * w);
    ShiftChangesRemainder(100 * n, 100 * (d * w));
  }

  /** Two strings ending in the same two characters, each spelling a check value, spell the same one. */
  lemma MatchingTailsSameCheckValue(s: string, t: string, v: nat, w: nat)
    requires |s| >= 2 && |t| >= 2 && v < 100 && w < 100
    requires s[|s| - 2] == t[|t| - 2] && s[|s| - 1] == t[|t| - 1]
    requires Tail(s) == TwoDigitString(v)
    ensures Tail(t) == TwoDigitString(w) ==> v == w
  {
    assert Tail(s) == [s[|s| - 2], s[|s| - 1]] && Tail(t) == [t[|t| - 2], t[|t| - 1]];
    if Tail(t) == TwoDigitString(w) {
      TwoDigitStringInjective(v, w);
    }
  }

  /** Replacing one character of the body by one of another digit value, while
      keeping the two check characters, turns a matching checksum into a failing one. */
  lemma SingleCharacterChangeDetected(s: string, t: string, i: nat)
    requires |s| == |t| && i + 2 < |s|
    requires forall j :: 0 <= j < |s| && j != i ==> s[j] == t[j]
    requires DigitValue(s[i]) != DigitValue(t[i])
    requires ChecksumMatches(s)
    ensures !ChecksumMatches(t)
  {
    BodyCharacterChange(s, t, i);
    ChecksumMatchesTail(s);
    ChecksumMatchesTail(t);
    MatchingTailsSameCheckValue(s, t, CheckValue(Body(s)), CheckValue(Body(t)));
  }

  /** A change of one body digit moves the check value and leaves the last two characters alone. */
  lemma BodyCharacterChange(s: string, t: string, i: nat)
    requires |s| == |t| && i + 2 < |s|
    requires forall j :: 0 <= j < |s| && j != i ==> s[j] == t[j]
    requires DigitValue(s[i]) != DigitValue(t[i])
    ensures CheckValue(Body(s)) != CheckValue(Body(t))
    ensures s[|s| - 2] == t[|t| - 2] && s[|s| - 1] == t[|t| - 1]
  {
    var bs, bt := Body(s), Body(t);
    assert bs[i] == s[i] && bt[i] == t[i];
    forall j | 0 <= j < |bs| && j != i
      ensures bs[j] == bt[j]
    {
      assert bs[j] == s[j] && bt[j] == t[j];
    }
    BodyChangeMovesCheckValue(bs, bt, i);
  }
}
