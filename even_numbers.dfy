/**
 * The `OnlyEven` iterator extensions: a lazy filter that keeps, in order,
 * the elements whose C# remainder by 2 is zero.
 */
module EvenNumbers {
  import opened Seqs
  import opened Int32

  /**
   * C#'s `x % 2` on integers: the remainder of division truncated toward
   * zero, so it takes the sign of the dividend (`-3 % 2 == -1`).
   */
  function RemainderBy2(x: int): (r: int)
    ensures -2 < r < 2
    ensures x >= 0 ==> 0 <= r
    ensures x < 0 ==> r <= 0
    ensures (x - r) % 2 == 0
  {
    if x >= 0 then x % 2 else -((-x) % 2)
  }

  /** The filter's test `i % 2 == 0`. */
  predicate IsEven(i: int) {
    RemainderBy2(i) == 0
  }

  /** `OnlyEven`: the even elements of `s`, in their original order. */
  function OnlyEven(s: seq<int>): seq<int> {
    if s == [] then []
    else if IsEven(s[0]) then [s[0]] + OnlyEven(s[1..])
    else OnlyEven(s[1..])
  }

  /**
   * `OnlyEvenGeneric` over any number type `T`: `hasZeroRemainder(i)` is
   * that type's test `i % T.CreateChecked(2) == T.Zero`.
   */
  function OnlyEvenGeneric<T>(s: seq<T>, hasZeroRemainder: T -> bool): seq<T> {
    if s == [] then []
    else if hasZeroRemainder(s[0]) then [s[0]] + OnlyEvenGeneric(s[1..], hasZeroRemainder)
    else OnlyEvenGeneric(s[1..], hasZeroRemainder)
  }

  /** The integer part of `x`, rounding toward zero as `decimal` division does. */
  function Truncate(x: real): int {
    if x >= 0.0 then x.Floor else -((-x).Floor)
  }

  /** `decimal`'s `x % 2 == 0`: the remainder after truncated division is zero. */
  predicate DecimalIsEven(x: real) {
    x - 2.0 * (Truncate(x / 2.0) as real) == 0.0
  }

  /** `Sum` / `Aggregate(T.Zero, (acc, i) => acc + i)` over integers. */
  function SumOf(s: seq<int>): int {
    if s == [] then 0 else s[0] + SumOf(s[1..])
  }

  /**
   * The truncated remainder decides evenness exactly as the mathematical
   * one does: negative evens pass and negative odds (remainder -1) do not.
   */
  lemma IsEvenIsDivisibility(i: int)
    ensures IsEven(i) <==> i % 2 == 0
    ensures i < 0 && i % 2 != 0 ==> RemainderBy2(i) == -1
  {
  }

  /** Filtering keeps each even value exactly as often as it occurs, and no odd value at all. */
  lemma {:induction false} OnlyEvenCount(s: seq<int>, x: int)
    ensures Count(OnlyEven(s), x) == if IsEven(x) then Count(s, x) else 0
  {
    if s != [] {
      OnlyEvenCount(s[1..], x);
      if IsEven(s[0]) {
        assert ([s[0]] + OnlyEven(s[1..]))[1..] == OnlyEven(s[1..]);
      }
    }
  }

  /** An element is yielded exactly when it is in the input and even. */
  lemma {:induction false} OnlyEvenMembership(s: seq<int>, x: int)
    ensures x in OnlyEven(s) <==> x in s && IsEven(x)
  {
    if s != [] {
      OnlyEvenMembership(s[1..], x);
      assert s == [s[0]] + s[1..];
    }
  }

  /** Filtering a concatenation filters each part and keeps their order: the output is an ordered subsequence. */
  lemma {:induction false} OnlyEvenAppend(s: seq<int>, t: seq<int>)
    ensures OnlyEven(s + t) == OnlyEven(s) + OnlyEven(t)
  {
    if s == [] {
      assert s + t == t;
    } else {
      assert (s + t)[1..] == s[1..] + t;
      OnlyEvenAppend(s[1..], t);
    }
  }

  /** The output is never longer than the input, and is the whole input exactly when every element is even. */
  lemma {:induction false} OnlyEvenLength(s: seq<int>)
    ensures |OnlyEven(s)| <= |s|
    ensures |OnlyEven(s)| == |s| <==> forall i :: 0 <= i < |s| ==> IsEven(s[i])
    ensures (forall i :: 0 <= i < |s| ==> IsEven(s[i])) ==> OnlyEven(s) == s
  {
    if s != [] {
      OnlyEvenLength(s[1..]);
      if forall i :: 0 <= i < |s| ==> IsEven(s[i]) {
        assert forall i :: 0 <= i < |s[1..]| ==> IsEven(s[1..][i]) by {
          forall i | 0 <= i < |s[1..]| ensures IsEven(s[1..][i]) {
            assert s[1..][i] == s[i + 1];
          }
        }
        assert s == [s[0]] + s[1..];
      }
      if !IsEven(s[0]) {
        assert !(forall i :: 0 <= i < |s| ==> IsEven(s[i]));
      } else if |OnlyEven(s)| == |s| {
        forall i | 0 <= i < |s| ensures IsEven(s[i]) {
          if i > 0 {
            assert s[i] == s[1..][i - 1];
          }
        }
      }
    }
  }

  /** Every yielded element is even. */
  lemma {:induction false} OnlyEvenYieldsEvens(s: seq<int>)
    ensures forall i :: 0 <= i < |OnlyEven(s)| ==> IsEven(OnlyEven(s)[i])
  {
    if s != [] {
      OnlyEvenYieldsEvens(s[1..]);
    }
  }

  /** Filtering twice is filtering once. */
  lemma OnlyEvenIdempotent(s: seq<int>)
    ensures OnlyEven(OnlyEven(s)) == OnlyEven(s)
  {
    OnlyEvenYieldsEvens(s);
    OnlyEvenLength(OnlyEven(s));
  }

  /** The generic version, at an integer type (`long`, `BigInteger`), yields the same elements as `OnlyEven`. */
  lemma {:induction false} GenericAgrees(s: seq<int>)
    ensures OnlyEvenGeneric(s, IsEven) == OnlyEven(s)
  {
    if s != [] {
      GenericAgrees(s[1..]);
    }
  }

  /** A `decimal` passes the generic filter exactly when it is a whole number and that number is even. */
  lemma DecimalIsEvenMeansEvenInteger(x: real)
    ensures DecimalIsEven(x) <==> x == x.Floor as real && x.Floor % 2 == 0
  {
    var t := Truncate(x / 2.0);
    if x == x.Floor as real && x.Floor % 2 == 0 {
      var k := x.Floor / 2;
      assert x == 2.0 * (k as real);
      assert x / 2.0 == k as real;
      assert t == k;
    }
    if DecimalIsEven(x) {
      assert x == 2.0 * (t as real);
      assert x == (2 * t) as real;
      assert x.Floor == 2 * t;
    }
  }

  /**
   * The test's enumeration loop over an `int[]`: adds up what the filter
   * yields into an `int`, with C#'s unchecked wrap-around at each step.
   */
  method EvenSum(numbers: seq<int>) returns (evenSum: int)
    requires forall i :: 0 <= i < |numbers| ==> InRange(numbers[i])
    ensures evenSum == Wrap(SumOf(OnlyEven(numbers)))
  {
    var evens := OnlyEven(numbers);
    evenSum := 0;
    var k := 0;
    while k < |evens|
      invariant 0 <= k <= |evens|
      invariant InRange(evenSum)
      invariant Wrap(evenSum + SumOf(evens[k..])) == Wrap(SumOf(evens))
    {
      assert evens[k..] == [evens[k]] + evens[k + 1..];
      WrapOfSum(evenSum + evens[k], SumOf(evens[k + 1..]));
      evenSum := Wrap(evenSum + evens[k]);
      k := k + 1;
    }
  }

  /** Two evens of 2^30 each: the `int` sum passes `int.MaxValue` and wraps to `int.MinValue`. */
  method EvenSumWrapsScenario() returns (evenSum: int)
    ensures evenSum == MinValue
  {
    var numbers := [0x4000_0000, 0x4000_0000];
    assert numbers[1..] == [0x4000_0000] && numbers[1..][1..] == [];
    assert IsEven(0x4000_0000);
    assert OnlyEven(numbers) == numbers;
    assert SumOf(numbers) == 0x8000_0000;
    evenSum := EvenSum(numbers);
  }

  lemma TenEvens()
    ensures OnlyEven([1, 2, 3, 4, 5, 6, 7, 8, 9, 10]) == [2, 4, 6, 8, 10]
  {
    OnlyEvenAppend([1, 2, 3, 4, 5], [6, 7, 8, 9, 10]);
    assert [1, 2, 3, 4, 5] + [6, 7, 8, 9, 10] == [1, 2, 3, 4, 5, 6, 7, 8, 9, 10];
    FirstFiveEvens();
    LastFiveEvens();
  }

  lemma FirstFiveEvens()
    ensures OnlyEven([1, 2, 3, 4, 5]) == [2, 4]
  {
    assert [1, 2, 3, 4, 5][1..] == [2, 3, 4, 5] && [2, 3, 4, 5][1..] == [3, 4, 5];
    assert [3, 4, 5][1..] == [4, 5] && [4, 5][1..] == [5] && [5][1..] == [];
  }

  lemma LastFiveEvens()
    ensures OnlyEven([6, 7, 8, 9, 10]) == [6, 8, 10]
  {
    assert [6, 7, 8, 9, 10][1..] == [7, 8, 9, 10] && [7, 8, 9, 10][1..] == [8, 9, 10];
    assert [8, 9, 10][1..] == [9, 10] && [9, 10][1..] == [10] && [10][1..] == [];
  }

  lemma TenEvensSum()
    ensures SumOf([2, 4, 6, 8, 10]) == 30
  {
    assert [2, 4, 6, 8, 10][1..] == [4, 6, 8, 10] && [4, 6, 8, 10][1..] == [6, 8, 10];
    assert [6, 8, 10][1..] == [8, 10] && [8, 10][1..] == [10];
  }

  lemma SixEvensSum()
    ensures SumOf(OnlyEvenGeneric([1, 2, 3, 4, 5, 6], IsEven)) == 12
  {
    GenericAgrees([1, 2, 3, 4, 5, 6]);
    assert OnlyEven([1, 2, 3, 4, 5, 6]) == [2, 4, 6];
    assert [2, 4, 6][1..] == [4, 6] && [4, 6][1..] == [6];
  }

  /** The tests' data: 1 to 10 gives 30, and 1 to 6 gives 12 through the generic version. */
  method EvenSumScenario() returns (tenSum: int, sixSum: int)
    ensures tenSum == 30 && sixSum == 12
  {
    tenSum := EvenSum([1, 2, 3, 4, 5, 6, 7, 8, 9, 10]);
    TenEvens();
    TenEvensSum();
    sixSum := SumOf(OnlyEvenGeneric([1, 2, 3, 4, 5, 6], IsEven));
    SixEvensSum();
  }

  /** The generic test at `decimal`: the even values of 1 to 6 sum to 12. */
  lemma DecimalEvenSum()
    ensures Sum(OnlyEvenGeneric([1.0, 2.0, 3.0, 4.0, 5.0, 6.0], DecimalIsEven)) == 12.0
  {
    var decimals := [1.0, 2.0, 3.0, 4.0, 5.0, 6.0];
    assert !DecimalIsEven(1.0) && DecimalIsEven(2.0) && !DecimalIsEven(3.0) by {
      assert Truncate(0.5) == 0 && Truncate(1.0) == 1 && Truncate(1.5) == 1;
    }
    assert DecimalIsEven(4.0) && !DecimalIsEven(5.0) && DecimalIsEven(6.0) by {
      assert Truncate(2.0) == 2 && Truncate(2.5) == 2 && Truncate(3.0) == 3;
    }
    assert decimals[1..][1..][1..][1..][1..][1..] == [];
    assert OnlyEvenGeneric(decimals, DecimalIsEven) == [2.0, 4.0, 6.0];
    assert [2.0, 4.0, 6.0][1..] == [4.0, 6.0] && [4.0, 6.0][1..] == [6.0];
  }
}
