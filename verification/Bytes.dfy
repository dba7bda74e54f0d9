// Bytes and the little-endian integers of the wire formats, together with the
// integer-alignment helpers of misc/balign.h.
module Bytes {
  newtype byte = x: int | 0 <= x < 256

  // Number of values a `width`-byte integer can take.
  function Range(width: nat): (r: nat)
    ensures r >= 1
  {
    if width == 0 then 1 else 256 * Range(width - 1)
  }

  // The `width`-byte little-endian form of n.
  function Le(n: nat, width: nat): (b: seq<byte>)
    ensures |b| == width
    decreases width
  {
    if width == 0 then [] else [(n % 256) as byte] + Le(n / 256, width - 1)
  }

  function FromLe(b: seq<byte>): (n: nat)
    ensures n < Range(|b|)
  {
    if b == [] then 0 else b[0] as nat + 256 * FromLe(b[1..])
  }

  lemma {:induction false} LeRoundTrip(n: nat, width: nat)
    requires n < Range(width)
    ensures FromLe(Le(n, width)) == n
    decreases width
  {
    if width > 0 {
      LeRoundTrip(n / 256, width - 1);
      assert Le(n, width)[1..] == Le(n / 256, width - 1);
    }
  }

  lemma {:induction false} FromLeRoundTrip(b: seq<byte>)
    ensures Le(FromLe(b), |b|) == b
  {
    if b != [] {
      FromLeRoundTrip(b[1..]);
      assert FromLe(b) / 256 == FromLe(b[1..]);
    }
  }

  lemma Range2()
    ensures Range(1) == 0x100 && Range(2) == 0x1_0000
  {
    assert Range(2) == 256 * Range(1);
  }

  lemma Range4()
    ensures Range(4) == 0x1_0000_0000
  {
    Range2();
    assert Range(4) == 256 * Range(3) && Range(3) == 256 * Range(2);
  }

  function AlignUp(x: nat, n: nat): (r: nat)
    requires n > 0
    ensures x <= r < x + n && r % n == 0
  {
    var rest := x % n;
    AlignUpFacts(x, n);
    if rest != 0 then x + (n - rest) else x
  }

  lemma AlignUpFacts(x: nat, n: nat)
    requires n > 0
    ensures 0 <= x % n < n
    ensures x % n != 0 ==> (x + (n - x % n)) % n == 0
  {
    var q := x / n;
    assert x == q * n + x % n;
    if x % n != 0 {
      assert x + (n - x % n) == (q + 1) * n;
      MultipleMod(q + 1, n);
    }
  }

  lemma MultipleMod(q: nat, n: nat)
    requires n > 0
    ensures (q * n) % n == 0 && (q * n) / n == q
  {
    var m := q * n;
    var d := q - m / n;
    assert d * n == m % n;
    if d >= 1 {
      Scale(d, 1, n);
    } else if d <= -1 {
      Scale(-1, d, n);
    }
  }

  lemma Scale(a: int, b: int, n: nat)
    requires a >= b
    ensures a * n >= b * n
  {
  }

  function AlignDown(x: nat, n: nat): (r: nat)
    requires n > 0
    ensures x - n < r <= x
  {
    x - x % n
  }

  function DivideUp(a: nat, b: nat): (r: nat)
    requires b > 0
    ensures a <= r * b < a + b
  {
    var r := a % b;
    assert a == (a / b) * b + r;
    if r > 0 then a / b + 1 else a / b
  }
}
