/**
 Positional numerals, most significant digit first, and the change of base that keeps
 leading zeros. Base58 is this change of base between 256 and 58.
 */
module Numerals {

  /** Every element is a digit of base `b`. */
  predicate InBase(ds: seq<nat>, b: nat) {
    forall i :: 0 <= i < |ds| ==> ds[i] < b
  }

  function Value(ds: seq<nat>, b: nat): nat {
    if ds == [] then 0 else Value(ds[..|ds| - 1], b) * b + ds[|ds| - 1]
  }

  /** The shortest numeral of `n`; the numeral of 0 is empty. */
  function Digits(n: nat, b: nat): (ds: seq<nat>)
    requires b >= 2
    ensures InBase(ds, b)
    ensures ds == [] <==> n == 0
    ensures n > 0 ==> ds[0] != 0
  {
    if n == 0 then [] else
      DivLess(n, b);
      Digits(n / b, b) + [n % b]
  }

  function Zeros(k: nat): seq<nat> {
    seq(k, _ => 0)
  }

  function LeadingZeros(ds: seq<nat>): (k: nat)
    ensures k <= |ds| && (forall i :: 0 <= i < k ==> ds[i] == 0)
    ensures k < |ds| ==> ds[k] != 0
  {
    if ds == [] || ds[0] != 0 then 0 else 1 + LeadingZeros(ds[1..])
  }

  /** The numeral `ds` of base `from` rewritten in base `to`, leading zeros kept one for one. */
  function Recode(ds: seq<nat>, from: nat, to: nat): (r: seq<nat>)
    requires from >= 2 && to >= 2
    ensures InBase(r, to)
  {
    Zeros(LeadingZeros(ds)) + Digits(Value(ds, from), to)
  }

  function Pow(b: nat, k: nat): nat {
    if k == 0 then 1 else b * Pow(b, k - 1)
  }

  /** Recoding is a bijection: the way back undoes the way there, for every digit string. */
  lemma {:induction false} RecodeRoundTrip(ds: seq<nat>, from: nat, to: nat)
    requires from >= 2 && to >= 2 && InBase(ds, from)
    ensures Recode(Recode(ds, from, to), to, from) == ds
  {
    var k := LeadingZeros(ds);
    var body := ds[k..];
    assert ds == Zeros(k) + body;
    ValueZeros(k, body, from);
    DigitsOfValue(body, from);
    var there := Digits(Value(ds, from), to);
    ValueOfDigits(Value(ds, from), to);
    ValueZeros(k, there, to);
    LeadingZerosPrefix(k, there);
  }

  lemma {:induction false} LeadingZerosPrefix(k: nat, ds: seq<nat>)
    requires ds == [] || ds[0] != 0
    ensures LeadingZeros(Zeros(k) + ds) == k
    decreases k
  {
    if k == 0 {
      assert Zeros(0) + ds == ds;
    } else {
      LeadingZerosPrefix(k - 1, ds);
      assert (Zeros(k) + ds)[1..] == Zeros(k - 1) + ds;
    }
  }

  lemma {:induction false} ValueOfDigits(n: nat, b: nat)
    requires b >= 2
    ensures Value(Digits(n, b), b) == n
    decreases n
  {
    if n != 0 {
      DivLess(n, b);
      ValueOfDigits(n / b, b);
      ValueSnoc(Digits(n / b, b), n % b, b);
      QuotientRemainder(n, b);
    }
  }

  lemma ValueSnoc(ds: seq<nat>, d: nat, b: nat)
    ensures Value(ds + [d], b) == Value(ds, b) * b + d
  {
  }

  lemma {:induction false} DigitsOfValue(ds: seq<nat>, b: nat)
    requires b >= 2 && InBase(ds, b)
    requires ds == [] || ds[0] != 0
    ensures Digits(Value(ds, b), b) == ds
    decreases |ds|
  {
    if ds != [] {
      var front, last := ds[..|ds| - 1], ds[|ds| - 1];
      DigitsOfValue(front, b);
      DivModOfSum(Value(front, b), b, last);
      assert ds == front + [last];
      assert front == [] ==> Value(front, b) == 0 && ds[0] == last;
    }
  }

  lemma {:induction false} ValueZeros(k: nat, ds: seq<nat>, b: nat)
    ensures Value(Zeros(k) + ds, b) == Value(ds, b)
    decreases |ds| + k
  {
    var all := Zeros(k) + ds;
    if ds != [] {
      assert all[..|all| - 1] == Zeros(k) + ds[..|ds| - 1];
      ValueZeros(k, ds[..|ds| - 1], b);
    } else if k > 0 {
      assert all[..|all| - 1] == Zeros(k - 1) + ds;
      ValueZeros(k - 1, ds, b);
    } else {
      assert all == ds;
    }
  }

  lemma {:induction false} ValueConcat(a: seq<nat>, c: seq<nat>, b: nat)
    ensures Value(a + c, b) == Value(a, b) * Pow(b, |c|) + Value(c, b)
    decreases |c|
  {
    if c == [] {
      assert a + c == a;
    } else {
      var front, last := c[..|c| - 1], c[|c| - 1];
      assert (a + c)[..|a + c| - 1] == a + front;
      ValueConcat(a, front, b);
      Distribute(Value(a, b), Pow(b, |front|), b, Value(front, b));
    }
  }

  lemma {:induction false} ValueBound(ds: seq<nat>, b: nat)
    requires InBase(ds, b)
    ensures Value(ds, b) < Pow(b, |ds|)
    decreases |ds|
  {
    if ds != [] {
      var front := ds[..|ds| - 1];
      ValueBound(front, b);
      MulMono(Value(front, b) + 1, Pow(b, |front|), b);
    }
  }

  /** When `n` has `top` above its last `k` digits, its numeral is that of `top` and `k` more. */
  lemma {:induction false} DigitsAbove(n: nat, b: nat, k: nat, top: nat)
    requires b >= 2 && top > 0
    requires top * Pow(b, k) <= n < (top + 1) * Pow(b, k)
    ensures |Digits(n, b)| == |Digits(top, b)| + k
    ensures Digits(n, b)[..|Digits(top, b)|] == Digits(top, b)
    decreases k
  {
    if k == 0 {
      assert n == top;
    } else {
      var p := Pow(b, k - 1);
      assert top * (b * p) == (top * p) * b && (top + 1) * (b * p) == ((top + 1) * p) * b by {
        Reassociate(top, b, p);
        Reassociate(top + 1, b, p);
      }
      DivBetween(n, b, top * p, (top + 1) * p);
      DigitsAbove(n / b, b, k - 1, top);
      assert n > 0 by {
        PowPositive(b, k);
        MulMono(1, top, Pow(b, k));
      }
    }
  }

  lemma {:induction false} PowPositive(b: nat, k: nat)
    requires b > 0
    ensures Pow(b, k) > 0
  {
    if k > 0 {
      PowPositive(b, k - 1);
      MulMono(1, Pow(b, k - 1), b);
    }
  }

  lemma {:induction false} PowSum(b: nat, j: nat, k: nat)
    ensures Pow(b, j + k) == Pow(b, j) * Pow(b, k)
    decreases j
  {
    if j > 0 {
      PowSum(b, j - 1, k);
      var p, q := Pow(b, j - 1), Pow(b, k);
      assert b * (p * q) == (b * p) * q;
    }
  }

  // Non-linear arithmetic, one fact a lemma.

  lemma DivLess(n: nat, b: nat)
    requires n > 0 && b >= 2
    ensures n / b < n
  {
  }

  lemma QuotientRemainder(n: nat, b: nat)
    requires b > 0
    ensures (n / b) * b + n % b == n
  {
  }

  lemma DivModOfSum(q: nat, b: nat, r: nat)
    requires r < b
    ensures (q * b + r) / b == q && (q * b + r) % b == r
  {
    var n := q * b + r;
    assert n == (n / b) * b + n % b;
    var d := n / b - q;
    assert d * b == r - n % b;
    if d > 0 {
      MulMono(1, d, b);
    } else if d < 0 {
      MulMono(1, -d, b);
    }
  }

  lemma DivBetween(n: nat, b: nat, lo: nat, hi: nat)
    requires b > 0 && lo * b <= n < hi * b
    ensures lo <= n / b < hi
  {
    var q := n / b;
    assert n == q * b + n % b;
    if q < lo {
      MulMono(q + 1, lo, b);
    } else if q >= hi {
      MulMono(hi, q, b);
    }
  }

  lemma MulMono(x: int, y: int, b: nat)
    requires x <= y
    ensures x * b <= y * b
  {
  }

  lemma Reassociate(x: nat, b: nat, p: nat)
    ensures x * (b * p) == (x * p) * b
  {
  }

  lemma Distribute(x: nat, p: nat, b: nat, y: nat)
    ensures (x * p + y) * b == x * (b * p) + y * b
  {
  }
}
