/** The Luhn checksum (Annex B of ISO/IEC 7812-1) that tells card-like numbers from other long numbers. */
module Luhn {
  type Digit = d: int | 0 <= d <= 9

  /** What a digit adds to the total; `index` counts from the right. */
  function Weigh(d: Digit, index: nat): (w: Digit)
  {
    if index % 2 == 0 then d else if 2 * d > 9 then 2 * d - 9 else 2 * d
  }

  function Total(digits: seq<Digit>): nat {
    if digits == [] then 0 else Weigh(digits[0], |digits| - 1) + Total(digits[1..])
  }

  predicate Valid(digits: seq<Digit>) {
    Total(digits) % 10 == 0
  }

  method LuhnValid(digits: seq<Digit>) returns (valid: bool)
    ensures valid <==> Valid(digits)
  {
    var total := 0;
    for index := 0 to |digits|
      invariant total == Total(digits[|digits| - index..])
    {
      var value: int := digits[|digits| - 1 - index];
      assert digits[|digits| - (index + 1)..][1..] == digits[|digits| - index..];
      if index % 2 == 1 {
        value := value * 2;
        if value > 9 {
          value := value - 9;
        }
      }
      total := total + value;
    }
    assert digits[0..] == digits;
    return total % 10 == 0;
  }

  lemma {:induction false} WeighIsInjective(a: Digit, b: Digit, index: nat)
    ensures Weigh(a, index) == Weigh(b, index) ==> a == b
  {
  }

  lemma {:induction false} TotalWith(digits: seq<Digit>, k: nat, d: Digit)
    requires k < |digits|
    ensures Total(digits[k := d]) == Total(digits) - Weigh(digits[k], |digits| - 1 - k) + Weigh(d, |digits| - 1 - k)
  {
    if k == 0 {
      assert digits[k := d][1..] == digits[1..];
    } else {
      TotalWith(digits[1..], k - 1, d);
      assert digits[k := d][1..] == digits[1..][k - 1 := d];
    }
  }

  lemma {:induction false} OneWeightCompletes(rest: int, w: Digit)
    ensures (rest + w) % 10 == 0 <==> w == (-rest) % 10
  {
  }

  /** The checksum detects every change of one digit. */
  lemma {:induction false} SingleChangeIsDetected(digits: seq<Digit>, k: nat, d: Digit)
    requires k < |digits| && Valid(digits)
    ensures Valid(digits[k := d]) <==> d == digits[k]
  {
    hide Weigh, Total;
    var index := |digits| - 1 - k;
    TotalWith(digits, k, d);
    OneWeightCompletes(Total(digits) - Weigh(digits[k], index), Weigh(digits[k], index));
    OneWeightCompletes(Total(digits) - Weigh(digits[k], index), Weigh(d, index));
    WeighIsInjective(digits[k], d, index);
  }

  /** A swap of two neighbouring digits is detected unless they are equal, or 0 and 9. */
  lemma {:induction false} SwapIsDetectedIff(digits: seq<Digit>, k: nat)
    requires k + 1 < |digits| && Valid(digits)
    ensures Valid(digits[k := digits[k + 1]][k + 1 := digits[k]]) <==>
            digits[k] == digits[k + 1] || {digits[k], digits[k + 1]} == {0, 9}
  {
    hide Weigh, Total;
    var a, b, index := digits[k], digits[k + 1], |digits| - 1 - k;
    TotalWith(digits, k, b);
    TotalWith(digits[k := b], k + 1, a);
    SwapWeights(a, b, index);
    SameRemainder(Total(digits), Weigh(b, index) + Weigh(a, index - 1) - Weigh(a, index) - Weigh(b, index - 1));
  }

  lemma {:induction false} SameRemainder(total: int, change: int)
    requires total % 10 == 0
    ensures (total + change) % 10 == 0 <==> change % 10 == 0
  {
  }

  lemma {:induction false} SwapWeights(a: Digit, b: Digit, index: nat)
    requires index >= 1
    ensures (Weigh(b, index) + Weigh(a, index - 1) - Weigh(a, index) - Weigh(b, index - 1)) % 10 == 0 <==>
            a == b || {a, b} == {0, 9}
  {
    if {a, b} == {0, 9} {
      assert a in {0, 9} && b in {0, 9} && 0 in {a, b} && 9 in {a, b};
    }
    if (a == 0 && b == 9) || (a == 9 && b == 0) {
      assert {a, b} == {0, 9};
    }
  }

  /** The digit with a given weight. */
  function Weighed(w: Digit, index: nat): (d: Digit)
    ensures Weigh(d, index) == w
  {
    if index % 2 == 0 then w else if w % 2 == 0 then w / 2 else (w + 9) / 2
  }

  /** Whatever the other digits are, exactly one digit at a position completes the number. */
  lemma {:induction false} OneDigitCompletes(digits: seq<Digit>, k: nat, d: Digit)
    requires k < |digits|
    ensures var index := |digits| - 1 - k;
            Valid(digits[k := d]) <==> d == Weighed((Weigh(digits[k], index) - Total(digits)) % 10, index)
  {
    hide Weigh, Total, Weighed;
    var index := |digits| - 1 - k;
    var w := (Weigh(digits[k], index) - Total(digits)) % 10;
    TotalWith(digits, k, d);
    OneWeightCompletes(Total(digits) - Weigh(digits[k], index), Weigh(d, index));
    WeighIsInjective(d, Weighed(w, index), index);
  }

  /** Every second digit counts double, the rightmost one does not, and a doubled digit counts by the sum of its
      digits. */
  lemma {:induction false} DoublesAre(d: Digit, index: nat)
    ensures Weigh(d, index) == if index % 2 == 0 then d else [0, 2, 4, 6, 8, 1, 3, 5, 7, 9][d]
  {
  }

  /** 18 is valid and 81 is not: it is the digit next to the last that counts double. */
  lemma {:induction false} EighteenIsValid()
    ensures Valid([1, 8]) && !Valid([8, 1])
  {
    assert Total([8]) == 8 && Total([1]) == 1;
  }
}
