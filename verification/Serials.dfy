/** Serial number arithmetic, and numbers spelled with the letters a to z. */
module Serials {
  const MODULUS: nat := 0x1_0000_0000
  const CUTOFF: nat := 0x8000_0000

  type Serial = s: nat | s < 0x1_0000_0000

  datatype Ordering = Less | Equal | Greater

  function CompareSerial(a: Serial, b: Serial): Ordering {
    if a == b then Equal
    else if (a < b && b - a < CUTOFF) || (a > b && a - b > CUTOFF) then Less
    else Greater
  }

  /** `s` advanced by `n`, modulo 2^32. */
  function Advance(s: Serial, n: int): Serial {
    (s + n) % MODULUS
  }

  /** The order of section 3.2 of RFC 1982 by distance: `b` is ahead of `a` by
      less than 2^31, behind it by less than 2^31, or exactly 2^31 away, where
      the standard leaves the order open and the code says `Greater` both ways. */
  lemma {:induction false} CompareByDistance(a: Serial, b: Serial)
    ensures var ahead := (b - a) % MODULUS;
            match CompareSerial(a, b)
            case Equal => ahead == 0
            case Less => 0 < ahead < CUTOFF
            case Greater => CUTOFF <= ahead
    ensures (b - a) % MODULUS == CUTOFF ==> CompareSerial(a, b) == CompareSerial(b, a) == Greater
    ensures (b - a) % MODULUS != CUTOFF ==> (CompareSerial(a, b) == Less <==> CompareSerial(b, a) == Greater)
  {
    ModOfDifference(b, a);
    ModOfDifference(a, b);
  }

  lemma {:induction false} ModOfDifference(b: Serial, a: Serial)
    ensures (b - a) % MODULUS == if b >= a then b - a else b - a + MODULUS
  {
    if b < a {
      assert (b - a + MODULUS) % MODULUS == b - a + MODULUS;
    }
  }

  /** The order does not depend on where the numbers start. */
  lemma {:induction false} CompareIsTranslationInvariant(a: Serial, b: Serial, n: int)
    ensures CompareSerial(Advance(a, n), Advance(b, n)) == CompareSerial(a, b)
  {
    CompareByDistance(a, b);
    CompareByDistance(Advance(a, n), Advance(b, n));
    var qa, qb := (a + n) / MODULUS, (b + n) / MODULUS;
    assert Advance(b, n) - Advance(a, n) == (b - a) + (qa - qb) * MODULUS;
    ModShift(b - a, qa - qb);
    ModOfDifference(b, a);
    ModOfDifference(Advance(b, n), Advance(a, n));
  }

  lemma ModShift(x: int, k: int)
    ensures (x + k * MODULUS) % MODULUS == x % MODULUS
  {
  }

  /** An update of the serial is accepted exactly for increments 1 to 2^31. */
  predicate AcceptsIncrement(before: Serial, after: Serial) {
    CompareSerial(after, before) == Greater
  }

  lemma {:induction false} AcceptedIncrements(before: Serial, n: int)
    requires 0 <= n < MODULUS
    ensures AcceptsIncrement(before, Advance(before, n)) <==> 1 <= n <= CUTOFF
  {
    CompareByDistance(Advance(before, n), before);
    var q := (before + n) / MODULUS;
    assert before - Advance(before, n) == -n + q * MODULUS;
    ModShift(-n, q);
    if n > 0 {
      assert (-n + MODULUS) % MODULUS == MODULUS - n;
      ModShift(-n, 1);
    }
  }

  /** The strict order used when the serial is set to the time: greater as in
      section 3.2 of RFC 1982, and not at distance 2^31. */
  predicate Exceeds(a: Serial, b: Serial) {
    0 < (a - b) % MODULUS < CUTOFF
  }

  /** The serial chosen by -u. */
  function BumpedSerial(now: Serial, current: Serial): Serial {
    if Exceeds(now, current) then now else Advance(current, 1)
  }

  /** It always lies ahead of the old one and is accepted as an increment. */
  lemma {:induction false} BumpGoesForward(now: Serial, current: Serial)
    ensures Exceeds(BumpedSerial(now, current), current)
    ensures AcceptsIncrement(current, BumpedSerial(now, current))
  {
    ModOfDifference(BumpedSerial(now, current), current);
    CompareByDistance(BumpedSerial(now, current), current);
    ModOfDifference(current, BumpedSerial(now, current));
  }

  // ----- Labels for numbers -----

  const LIMIT: nat := 0x1_0000_0000_0000_0000

  predicate IsLetter(c: char) {
    'a' <= c <= 'z'
  }

  predicate Letters(s: string) {
    forall i :: 0 <= i < |s| ==> IsLetter(s[i])
  }

  function Digit(c: char): (d: int)
    requires IsLetter(c)
    ensures 0 <= d < 26
  {
    c as int - 'a' as int
  }

  /** The number a label stands for, least significant letter first. */
  function Decode(letters: string): nat
    requires Letters(letters)
  {
    if letters == "" then 0 else Digit(letters[0]) + 26 * Decode(letters[1..])
  }

  function Power26(k: nat): nat {
    if k == 0 then 1 else 26 * Power26(k - 1)
  }

  lemma {:induction false} DecodeAppend(letters: string, c: char)
    requires Letters(letters)
    requires IsLetter(c)
    ensures Decode(letters + [c]) == Decode(letters) + Digit(c) * Power26(|letters|)
  {
    if letters != "" {
      DecodeAppend(letters[1..], c);
      assert (letters + [c])[1..] == letters[1..] + [c];
    }
  }

  /** The letters so far and what is left of the number make up the number. */
  ghost predicate Spelled(letters: string, rest: nat, number: nat)
    requires Letters(letters)
  {
    Decode(letters) + rest * Power26(|letters|) == number
  }

  function LetterFor(r: nat): (c: char)
    requires r < 26
    ensures IsLetter(c) && Digit(c) == r
  {
    ('a' as int + r) as char
  }

  lemma {:induction false} NextLetter(letters: string, n: nat, number: nat)
    requires Letters(letters) && Spelled(letters, n, number)
    ensures Letters(letters + [LetterFor(n % 26)])
    ensures Spelled(letters + [LetterFor(n % 26)], n / 26, number)
  {
    DecodeAppend(letters, LetterFor(n % 26));
    SplitDigit(n, n / 26, n % 26, Power26(|letters|));
  }

  /** Spell a number; decoding gives it back, so no two numbers share a label. */
  method NumberToLabel(number: nat) returns (letters: string)
    requires number < LIMIT
    ensures Letters(letters) && Decode(letters) == number
    ensures 1 <= |letters| <= 14
    ensures letters == "a" || letters[|letters| - 1] != 'a'
  {
    letters := "";
    var n := number;
    while n != 0
      invariant Letters(letters) && Spelled(letters, n, number)
      invariant n == 0 ==> letters == "" || letters[|letters| - 1] != 'a'
      decreases n
    {
      NextLetter(letters, n, number);
      letters := letters + [('a' as int + n % 26) as char];
      n := n / 26;
    }
    if letters == "" {
      letters := "a";
    }
    LastLetterBounds(letters);
  }

  lemma SplitDigit(n: nat, q: nat, r: nat, power: nat)
    requires n == 26 * q + r
    ensures n * power == q * (26 * power) + r * power
  {
  }

  lemma {:induction false} LastLetterBounds(letters: string)
    requires letters != "" && Letters(letters)
    requires Decode(letters) < LIMIT && (letters == "a" || letters[|letters| - 1] != 'a')
    ensures |letters| <= 14
  {
    assert Power26(14) == 64509974703297150976;
    if letters != "a" {
      DecodeAtLeast(letters);
      if |letters| > 14 {
        PowerGrows(14, |letters| - 1);
      }
    }
  }

  lemma {:induction false} DecodeAtLeast(letters: string)
    requires letters != "" && Letters(letters)
    requires letters[|letters| - 1] != 'a'
    ensures Decode(letters) >= Power26(|letters| - 1)
  {
    if |letters| > 1 {
      DecodeAtLeast(letters[1..]);
    }
  }

  lemma {:induction false} PowerGrows(j: nat, k: nat)
    requires j <= k
    ensures Power26(j) <= Power26(k)
  {
    if j < k {
      PowerGrows(j, k - 1);
    }
  }

  /** Labels as `NumberToLabel` makes them are determined by their numbers. */
  lemma {:induction false} DecodeIsInjective(a: string, b: string)
    requires Letters(a) && Letters(b) && Decode(a) == Decode(b)
    requires a == "" || a[|a| - 1] != 'a'
    requires b == "" || b[|b| - 1] != 'a'
    ensures a == b
  {
    if a != "" {
      DecodeAtLeast(a);
      PowerGrows(0, |a| - 1);
    }
    if b != "" {
      DecodeAtLeast(b);
      PowerGrows(0, |b| - 1);
    }
    if a != "" && b != "" {
      assert Digit(a[0]) == Digit(b[0]);
      DecodeIsInjective(a[1..], b[1..]);
      assert a == [a[0]] + a[1..] && b == [b[0]] + b[1..];
    }
  }
}
