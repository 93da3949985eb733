/**
 The string repetition helper of TheDotFactory (StringExtension.Repeat).

 `Repeated` is the specification: `count` copies of `input` laid end to end,
 built the same way as the loop builds it, one copy appended at a time.
 `Repeat` is the loop itself, proved to compute `Repeated`; the lemmas state
 what the result is: its length, its periodicity, and the concatenation law.
 */
module StringExtension {

  /** `count` copies of `input`. The result is empty exactly when there is nothing to
      repeat: a zero or negative count, or an empty input. */
  function Repeated(input: string, count: int): (r: string)
    ensures r == "" <==> count <= 0 || input == ""
    decreases count
  {
    if count <= 0 then "" else Repeated(input, count - 1) + input
  }

  /** The loop of StringExtension.Repeat: starts from "" and appends `input` once per
      iteration while the counter stays below `count` (so a negative count runs it zero times). */
  method Repeat(input: string, count: int) returns (result: string)
    ensures result == Repeated(input, count)
    ensures count >= 0 ==> |result| == |input| * count
  {
    result := "";
    var i := 0;
    while i < count
      invariant 0 <= i
      invariant i <= count || i == 0
      invariant result == Repeated(input, i)
    {
      result := result + input;
      i := i + 1;
    }
    if count >= 0 {
      RepeatedLength(input, count);
    } else {
      assert Repeated(input, count) == "";
    }
  }

  /** The result holds exactly `count` copies' worth of characters. */
  lemma {:induction false} RepeatedLength(input: string, count: int)
    requires count >= 0
    ensures |Repeated(input, count)| == |input| * count
    decreases count
  {
    if count > 0 {
      RepeatedLength(input, count - 1);
      calc {
        |Repeated(input, count)|;
        |Repeated(input, count - 1)| + |input|;
        |input| * (count - 1) + |input|;
        { MulSucc(|input|, count - 1); }
        |input| * count;
      }
    }
  }

  /** One copy is the input itself. */
  lemma RepeatedOnce(input: string)
    ensures Repeated(input, 1) == input
  {
    assert Repeated(input, 0) == "";
  }

  /** Concatenation law: `a + b` copies are `a` copies followed by `b` copies. */
  lemma {:induction false} RepeatedAdd(input: string, a: int, b: int)
    requires a >= 0 && b >= 0
    ensures Repeated(input, a + b) == Repeated(input, a) + Repeated(input, b)
    decreases b
  {
    if b == 0 {
      assert Repeated(input, a) + "" == Repeated(input, a);
    } else {
      RepeatedAdd(input, a, b - 1);
      calc {
        Repeated(input, a + b);
        Repeated(input, a + b - 1) + input;
        (Repeated(input, a) + Repeated(input, b - 1)) + input;
        Repeated(input, a) + (Repeated(input, b - 1) + input);
        Repeated(input, a) + Repeated(input, b);
      }
    }
  }

  /** Periodicity: the character at position `i` is the input's character at `i mod |input|`. */
  lemma {:induction false} RepeatedAt(input: string, count: int, i: int)
    requires 0 <= i < |input| * count
    ensures |Repeated(input, count)| == |input| * count
    ensures Repeated(input, count)[i] == input[i % |input|]
    decreases count
  {
    var n := |input|;
    assert n > 0 && count > 0 by {
      if count <= 0 { MulNonPositive(n, count); }
    }
    RepeatedLength(input, count);
    RepeatedLength(input, count - 1);
    MulSucc(n, count - 1);
    if i < n * (count - 1) {
      RepeatedAt(input, count - 1, i);
    } else {
      var j := i - n * (count - 1);
      assert 0 <= j < n;
      ModOfMultiplePlus(n, count - 1, j);
      assert Repeated(input, count)[i] == input[j];
    }
  }

  // Arithmetic helpers for the lemmas above.

  lemma MulSucc(n: int, k: int)
    ensures n * k + n == n * (k + 1)
  {
  }

  lemma MulNonPositive(n: nat, k: int)
    requires k <= 0
    ensures n * k <= 0
  {
  }

  lemma ModOfMultiplePlus(n: int, k: int, j: int)
    requires n > 0 && k >= 0 && 0 <= j < n
    ensures (n * k + j) % n == j
  {
    var x := n * k + j;
    var q, r := x / n, x % n;
    assert x == n * q + r && 0 <= r < n;
    assert n * (q - k) == j - r;
    if q - k > 0 {
      MulAtLeast(n, q - k);
    } else if q - k < 0 {
      MulAtLeast(n, k - q);
    }
  }

  lemma MulAtLeast(n: nat, m: int)
    requires m >= 1
    ensures n * m >= n
  {
  }
}
