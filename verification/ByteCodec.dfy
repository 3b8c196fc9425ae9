/**
 ntob and bton: an int of `k` bytes (k is prefix_length) written to a buffer of signed chars, lowest byte
 first, and read back. Reading starts one char beyond the k that were written, adds the chars with their
 sign, and wraps around like the int it accumulates into.
 */
module ByteCodec {

  /** A char, signed and eight bits wide. */
  type Char8 = x: int | -128 <= x < 128

  function Pow256(k: nat): (p: nat)
    ensures p >= 1
  {
    if k == 0 then 1 else 256 * Pow256(k - 1)
  }

  /** The value of an int of `k` bytes after wrap-around. */
  function Wrap(x: int, k: nat): int {
    var m := x % Pow256(k);
    if 2 * m < Pow256(k) then m else m - Pow256(k)
  }

  /** The values an int of `k` bytes can hold. */
  predicate Fits(n: int, k: nat) {
    -2 * n <= Pow256(k) && 2 * n < Pow256(k)
  }

  /** Byte `i` of `n`: the low eight bits of n >> 8i. The shift rounds down, as an arithmetic shift does. */
  function ByteAt(n: int, i: nat): (b: int)
    ensures 0 <= b < 256
  {
    (n / Pow256(i)) % 256
  }

  /** The cast of the low eight bits to char. */
  function ToChar(b: int): Char8
    requires 0 <= b < 256
  {
    if b < 128 then b else b - 256
  }

  function Encode(n: int, k: nat): seq<Char8> {
    seq(k, i requires 0 <= i < k => ToChar(ByteAt(n, i)))
  }

  /** What the loop of bton accumulates from the chars of `bs`, the last one first. */
  function Decode(bs: seq<Char8>, k: nat): int {
    if bs == [] then 0 else Wrap(256 * Decode(bs[1..], k) + bs[0], k)
  }

  method Ntob(number: int, buffer: array?<Char8>, k: nat) returns (rc: int)
    requires buffer != null ==> k <= buffer.Length
    modifies buffer
    ensures buffer == null ==> rc == -1
    ensures buffer != null ==> rc == 0 && buffer[..k] == Encode(number, k) && buffer[k..] == old(buffer[k..])
  {
    if buffer == null {
      return -1;
    }
    for i := 0 to k
      invariant buffer[..i] == Encode(number, k)[..i]
      invariant buffer[k..] == old(buffer[k..])
    {
      buffer[i] := ToChar(ByteAt(number, i));
      assert buffer[..i + 1] == buffer[..i] + [buffer[i]];
    }
    return 0;
  }

  /** The buffer must be one char longer than what ntob writes. */
  method Bton(buffer: array?<Char8>, k: nat) returns (result: int)
    requires buffer != null ==> k < buffer.Length
    ensures buffer == null ==> result == -1
    ensures buffer != null ==> result == Decode(buffer[..k + 1], k)
  {
    if buffer == null {
      return -1;
    }
    result := 0;
    var n := k + 1;
    while n > 0
      invariant 0 <= n <= k + 1
      invariant result == Decode(buffer[n..k + 1], k)
    {
      n := n - 1;
      result := Wrap(256 * result + buffer[n], k);
      assert buffer[n..k + 1][1..] == buffer[n + 1..k + 1];
    }
    assert buffer[0..k + 1] == buffer[..k + 1];
  }

  // ---- Arithmetic

  lemma Distribute(a: int, b: int, m: int)
    ensures (a + b) * m == a * m + b * m
  {
  }

  lemma Associate(a: int, b: int, m: int)
    ensures a * (b * m) == (a * b) * m
  {
  }

  lemma AtLeastOnce(d: int, m: int)
    requires d >= 1 && m >= 0
    ensures d * m >= m
  {
    assert (d - 1) * m >= 0;
  }

  /** The only multiple of `m` that is smaller than `m` either way is zero. */
  lemma SmallMultiple(d: int, m: int)
    requires -m < d * m < m
    ensures d == 0
  {
    if d >= 1 {
      AtLeastOnce(d, m);
    } else if d <= -1 {
      AtLeastOnce(-d, m);
    }
  }

  lemma DivModUnique(x: int, m: int, q: int, r: int)
    requires m > 0 && x == q * m + r && 0 <= r < m
    ensures x / m == q && x % m == r
  {
    var d := x / m - q;
    assert d * m == (x / m) * m - q * m by {
      Distribute(x / m, -q, m);
    }
    SmallMultiple(d, m);
  }

  lemma ModShift(a: int, q: int, m: int)
    requires m > 0
    ensures (a + q * m) % m == a % m
  {
    Distribute(a / m, q, m);
    DivModUnique(a + q * m, m, a / m + q, a % m);
  }

  /** Values that differ by a multiple of 256^k wrap to the same int. */
  lemma WrapShift(a: int, q: int, k: nat)
    ensures Wrap(a + q * Pow256(k), k) == Wrap(a, k)
  {
    ModShift(a, q, Pow256(k));
  }

  lemma WrapFits(n: int, k: nat)
    requires Fits(n, k)
    ensures Wrap(n, k) == n
  {
    if n >= 0 {
      DivModUnique(n, Pow256(k), 0, n);
    } else {
      DivModUnique(n, Pow256(k), -1, n + Pow256(k));
    }
  }

  /** Wrapping differs from its argument by a multiple of 256^k. */
  lemma WrapQuotient(x: int, k: nat) returns (q: int)
    ensures Wrap(x, k) == x + q * Pow256(k)
  {
    var p := Pow256(k);
    q := if 2 * (x % p) < p then -(x / p) else -(x / p) - 1;
  }

  // ---- What the loop computes

  /** The sum of the chars weighted by powers of 256, without wrap-around. */
  function Weighted(bs: seq<int>): int {
    if bs == [] then 0 else 256 * Weighted(bs[1..]) + bs[0]
  }

  /** Wrapping at every turn is the same as wrapping once. */
  lemma {:induction false} DecodeWeighted(bs: seq<Char8>, k: nat)
    requires bs != []
    ensures Decode(bs, k) == Wrap(Weighted(bs), k)
  {
    if |bs| == 1 {
      assert Decode(bs[1..], k) == 0 && Weighted(bs[1..]) == 0;
    } else {
      hide Wrap, Pow256;
      DecodeWeighted(bs[1..], k);
      var w := Weighted(bs[1..]);
      var q := WrapQuotient(w, k);
      Associate(256, q, Pow256(k));
      WrapShift(256 * w + bs[0], 256 * q, k);
    }
  }

  lemma {:induction false} WeightedSnoc(bs: seq<int>, x: int)
    ensures Weighted(bs + [x]) == Weighted(bs) + x * Pow256(|bs|)
  {
    if bs == [] {
      assert bs + [x] == [x];
      assert Weighted([x]) == 256 * Weighted([x][1..]) + x;
    } else {
      assert (bs + [x])[1..] == bs[1..] + [x];
      WeightedSnoc(bs[1..], x);
      assert 256 * (x * Pow256(|bs| - 1)) == x * Pow256(|bs|);
    }
  }

  /** The extra char that bton reads beyond the k encoded ones never affects the result. */
  lemma ExtraCharIgnored(bs: seq<Char8>, x: Char8, y: Char8)
    ensures Decode(bs + [x], |bs|) == Decode(bs + [y], |bs|)
    ensures bs != [] ==> Decode(bs + [x], |bs|) == Decode(bs, |bs|)
  {
    hide Wrap, Pow256, Decode, Weighted;
    var k := |bs|;
    DecodeWeighted(bs + [x], k);
    DecodeWeighted(bs + [y], k);
    WeightedSnoc(bs, x);
    WeightedSnoc(bs, y);
    WrapShift(Weighted(bs), x, k);
    WrapShift(Weighted(bs), y, k);
    if bs != [] {
      DecodeWeighted(bs, k);
    }
  }

  // ---- The round trip

  function Digits(n: int, k: nat): seq<int> {
    seq(k, i requires 0 <= i < k => ByteAt(n, i))
  }

  /** What the signs of the chars take away: 256^(i+1) for every byte i < k that is 128 or more. */
  function Borrowed(n: int, k: nat): (b: nat) {
    if k == 0 then 0 else Borrowed(n, k - 1) + if ByteAt(n, k - 1) >= 128 then Pow256(k) else 0
  }

  /** Unsigned digits are the base-256 representation of n modulo 256^k. */
  lemma {:induction false} DigitsWeighted(n: int, k: nat)
    ensures Weighted(Digits(n, k)) == n % Pow256(k)
  {
    if k == 0 {
      DivModUnique(n, 1, n, 0);
    } else {
      DigitsWeighted(n, k - 1);
      assert Digits(n, k) == Digits(n, k - 1) + [ByteAt(n, k - 1)];
      WeightedSnoc(Digits(n, k - 1), ByteAt(n, k - 1));
      NextDigit(n, k - 1);
    }
  }

  lemma NextDigit(n: int, i: nat)
    ensures n % Pow256(i + 1) == n % Pow256(i) + ByteAt(n, i) * Pow256(i)
  {
    var p := Pow256(i);
    var q, r := n / p, n % p;
    var q2, b := q / 256, q % 256;
    assert n == q * p + r && q == q2 * 256 + b;
    assert (q2 * 256 + b) * p == q2 * (256 * p) + b * p;
    assert 0 <= b * p <= 255 * p by {
      assert b <= 255;
    }
    DivModUnique(n, 256 * p, q2, b * p + r);
  }

  /** The signed chars fall short of the unsigned digits by what the signs take away. */
  lemma {:induction false} EncodeWeighted(n: int, k: nat)
    ensures Weighted(Encode(n, k)) == n % Pow256(k) - Borrowed(n, k)
  {
    if k == 0 {
      DivModUnique(n, 1, n, 0);
    } else {
      EncodeWeighted(n, k - 1);
      assert Encode(n, k) == Encode(n, k - 1) + [ToChar(ByteAt(n, k - 1))];
      WeightedSnoc(Encode(n, k - 1), ToChar(ByteAt(n, k - 1)));
      NextDigit(n, k - 1);
      var p := Pow256(k - 1);
      assert (ByteAt(n, k - 1) - 256) * p == ByteAt(n, k - 1) * p - 256 * p;
    }
  }

  /**
   bton(ntob(n)) is n minus 256^(i+1) for every byte i < k-1 of n that is 128 or more, wrapped around. The
   top byte does not count: its share is a multiple of 256^k.
   */
  lemma RoundTrip(n: int, k: nat, extra: Char8)
    requires k > 0
    ensures Decode(Encode(n, k) + [extra], k) == Wrap(n - Borrowed(n, k - 1), k)
  {
    hide Wrap, Pow256, Decode, Weighted, ByteAt;
    var bs := Encode(n, k);
    ExtraCharIgnored(bs, extra, extra);
    DecodeWeighted(bs, k);
    EncodeWeighted(n, k);
    var p := Pow256(k);
    var top: int := if ByteAt(n, k - 1) >= 128 then 1 else 0;
    assert Borrowed(n, k) == Borrowed(n, k - 1) + top * p;
    Distribute(-(n / p), -top, p);
    WrapShift(n - Borrowed(n, k - 1), -(n / p) - top, k);
  }

  lemma {:induction false} BorrowedBound(n: int, k: nat)
    ensures 255 * Borrowed(n, k) <= 256 * (Pow256(k) - 1)
  {
    if k > 0 {
      BorrowedBound(n, k - 1);
    }
  }

  lemma {:induction false} BorrowedZero(n: int, k: nat)
    ensures Borrowed(n, k) == 0 <==> forall i :: 0 <= i < k ==> ByteAt(n, i) < 128
  {
    if k > 0 {
      BorrowedZero(n, k - 1);
    }
  }

  /** The round trip returns n exactly when every byte but the top one is below 128. */
  lemma RoundTripExactly(n: int, k: nat, extra: Char8)
    requires k > 0 && Fits(n, k)
    ensures Decode(Encode(n, k) + [extra], k) == n <==> forall i :: 0 <= i < k - 1 ==> ByteAt(n, i) < 128
  {
    hide Wrap, Decode, Encode, ByteAt, Fits;
    RoundTrip(n, k, extra);
    BorrowedZero(n, k - 1);
    BorrowedBound(n, k - 1);
    WrapFits(n, k);
    var e, p := Borrowed(n, k - 1), Pow256(k);
    assert e < p;
    if Wrap(n - e, k) == n {
      var q := WrapQuotient(n - e, k);
      SmallMultiple(q, p);
    }
  }

  /** With digits taken as unsigned bytes the codec would be a true inverse. */
  lemma UnsignedRoundTrip(n: int, k: nat)
    requires Fits(n, k)
    ensures Wrap(Weighted(Digits(n, k)), k) == n
  {
    hide Wrap, Pow256, Weighted, Digits;
    DigitsWeighted(n, k);
    var p := Pow256(k);
    Associate(-1, n / p, p);
    WrapShift(n, -(n / p), k);
    WrapFits(n, k);
  }

  /** The lowest byte comes first, and a byte of 128 or more is a negative char. */
  lemma LowestFirst()
    ensures Encode(0x01020380, 4) == [-128, 3, 2, 1]
    ensures Decode([-128, 3, 2, 1, 77], 4) == 0x01020280
  {
    hide Encode, Decode, Wrap, Pow256, Borrowed, Fits;
    LowestEncoded();
    LowestBorrowed();
    RoundTrip(0x01020380, 4, 77);
    WrapFits(0x01020280, 4);
    assert [-128, 3, 2, 1, 77] == Encode(0x01020380, 4) + [77];
  }

  lemma LowestEncoded()
    ensures Encode(0x01020380, 4) == [-128, 3, 2, 1]
  {
    assert Pow256(1) == 256 && Pow256(2) == 65536 && Pow256(3) == 16777216;
  }

  lemma LowestBorrowed()
    ensures Borrowed(0x01020380, 3) == 256 && Fits(0x01020280, 4) && Fits(0x01020380, 4)
  {
    assert Pow256(1) == 256 && Pow256(2) == 65536 && Pow256(3) == 16777216 && Pow256(4) == 4294967296;
    assert ByteAt(0x01020380, 0) == 128 && ByteAt(0x01020380, 1) == 3 && ByteAt(0x01020380, 2) == 2;
    assert Borrowed(0x01020380, 1) == 256;
  }

  /** The widths that prefix_length names: an int of four bytes loses 256 on the number 128. */
  lemma RoundTripLoses(extra: Char8)
    ensures Fits(128, 4) && Decode(Encode(128, 4) + [extra], 4) == -128
  {
    assert Pow256(1) == 256 && Pow256(2) == 65536 && Pow256(3) == 16777216 && Pow256(4) == 4294967296;
    RoundTrip(128, 4, extra);
    assert ByteAt(128, 0) == 128 && ByteAt(128, 1) == 0 && ByteAt(128, 2) == 0;
    assert Borrowed(128, 1) == 256;
    assert Borrowed(128, 3) == 256;
    WrapFits(-128, 4);
  }
}
