/**
 * The public half of the ADB key as Android expects it: an RSA modulus with
 * the two numbers its Montgomery arithmetic starts from, packed in little-endian
 * words, printed in Base64 and hashed to name the key's generation.
 */
module AdbCredentials {
  import opened Wrappers

  type Byte = b: nat | b < 256

  const COMMENT := " ha-paneld@home-assistant"

  function Pow2(n: nat): (p: nat)
    ensures p >= 1
  {
    if n == 0 then 1 else 2 * Pow2(n - 1)
  }

  lemma {:induction false} Pow2Adds(a: nat, b: nat)
    ensures Pow2(a + b) == Pow2(a) * Pow2(b)
    decreases a
  {
    if a > 0 { Pow2Adds(a - 1, b); }
  }

  // ---------------------------------------------------------------- the word inverse

  /**
   * The inverse of an odd number modulo a power of two, one more bit at a
   * time, beside the multiple of the power by which the product exceeds 1.
   */
  function Lifted(a: nat, bits: nat): (r: (nat, int))
    requires a % 2 == 1
    ensures r.0 < Pow2(bits)
    ensures a * r.0 == 1 + r.1 * Pow2(bits)
    decreases bits
  {
    if bits == 0 then (0, -1)
    else
      var (x, t) := Lifted(a, bits - 1);
      var p := Pow2(bits - 1);
      if t % 2 == 0 then
        assert t * p == (t / 2) * (2 * p) by { HalveProduct(t, p); }
        (x, t / 2)
      else
        assert a * (x + p) == 1 + ((t + a) / 2) * (2 * p) by { OddStep(a, x, t, p); }
        (x + p, (t + a) / 2)
  }

  lemma HalveProduct(t: int, p: nat)
    requires t % 2 == 0
    ensures t * p == (t / 2) * (2 * p)
  {
    var h := t / 2;
    assert t == 2 * h;
    assert (2 * h) * p == h * (2 * p);
  }

  lemma OddStep(a: nat, x: nat, t: int, p: nat)
    requires a % 2 == 1 && t % 2 == 1 && a * x == 1 + t * p
    ensures a * (x + p) == 1 + ((t + a) / 2) * (2 * p)
  {
    assert a * (x + p) == a * x + a * p;
    Distribute(t, a, p);
    HalveProduct(t + a, p);
  }

  function Inverse(a: nat, bits: nat): (x: nat)
    requires a % 2 == 1
    ensures x < Pow2(bits)
    ensures a * x % Pow2(bits) == 1 % Pow2(bits)
  {
    var (x, t) := Lifted(a, bits);
    assert a * x % Pow2(bits) == 1 % Pow2(bits) by { ModShift(1, Pow2(bits), t); }
    x
  }

  lemma ModShift(r: int, m: nat, k: int)
    requires m >= 1
    ensures (r + k * m) % m == r % m
  {
    var q := r / m;
    assert r == q * m + r % m;
    assert r + k * m == (q + k) * m + r % m by { Distribute(q, k, m); }
    DivUnique(r + k * m, q + k, r % m, m);
  }

  lemma Distribute(a: int, b: int, m: int)
    ensures (a + b) * m == a * m + b * m
  {
  }

  lemma DivUnique(v: int, q: int, r: int, m: nat)
    requires m >= 1 && 0 <= r < m && v == q * m + r
    ensures v / m == q && v % m == r
  {
    var d := v / m - q;
    assert v == (v / m) * m + v % m;
    assert d * m == r - v % m by { Distribute(v / m, -q, m); NegatedProduct(q, m); }
    NegatedProduct(d, m);
    if d >= 1 { Grows(d, m); } else if d <= -1 { Grows(-d, m); }
  }

  lemma NegatedProduct(a: int, b: int)
    ensures (-a) * b == -(a * b)
  {
  }

  lemma Grows(d: int, m: nat)
    requires d >= 1
    ensures d * m >= m
  {
    Distribute(d - 1, 1, m);
    assert (d - 1) * m >= 0 by { if m > 0 { NonNegative(d - 1, m); } }
  }

  lemma NonNegative(a: int, b: int)
    requires a >= 0 && b >= 0
    ensures a * b >= 0
  {
  }

  /** There is only one such inverse, so this is the one any algorithm finds. */
  lemma InverseIsUnique(a: nat, bits: nat, y: nat)
    requires a % 2 == 1 && bits > 0 && y < Pow2(bits) && a * y % Pow2(bits) == 1
    ensures y == Inverse(a, bits)
  {
    hide Pow2, Lifted, Inverse;
    var m := Pow2(bits);
    var x := Inverse(a, bits);
    InverseLifted(a, bits);
    var t, s := Lifted(a, bits).1, a * y / m;
    Quotient(a * y, m);
    CrossProducts(a, x, y, s, t, m);
    SmallMultiple(x - y, y * t - x * s, m);
  }

  lemma InverseLifted(a: nat, bits: nat)
    requires a % 2 == 1
    ensures Inverse(a, bits) == Lifted(a, bits).0
  {
  }

  lemma Quotient(v: nat, m: nat)
    requires m >= 1
    ensures v == (v / m) * m + v % m
  {
  }

  lemma SmallMultiple(v: int, d: int, m: int)
    requires m >= 1 && v == d * m && -m < v < m
    ensures v == 0
  {
    NegatedProduct(d, m);
    if d >= 1 { Grows(d, m); } else if d <= -1 { Grows(-d, m); }
  }

  lemma CrossProducts(a: int, x: int, y: int, s: int, t: int, m: int)
    requires a * x == 1 + t * m && a * y == s * m + 1
    ensures x - y == (y * t - x * s) * m
  {
    assert y * (a * x) == y + y * (t * m) by { Distribute(1, t * m, y); assert (1 + t * m) * y == y * (1 + t * m); }
    assert x * (a * y) == x + x * (s * m) by { Distribute(1, s * m, x); assert (1 + s * m) * x == x * (1 + s * m); }
    assert y * (a * x) == x * (a * y);
    assert y * (t * m) == (y * t) * m && x * (s * m) == (x * s) * m;
    Distribute(y * t, -(x * s), m);
    NegatedProduct(x * s, m);
  }

  // -------------------------------------------------------------- the Montgomery numbers

  /** How wide the words are, and how many a modulus has. */
  datatype Format = Format(wordBytes: nat, words: nat)
  {
    function Word(): (w: nat)
      ensures w >= 1
    {
      Pow2(8 * wordBytes)
    }

    function Size(): nat { wordBytes * words }

    /** The radix of Montgomery arithmetic on this many words. */
    function Radix(): (r: nat)
      ensures r >= 1
    {
      Pow2(8 * Size())
    }
  }

  /** RSA with 2048 bits, in words of 32. */
  const ANDROID := Format(4, 64)

  /** Minus the inverse of the modulus, for reducing one word at a time. */
  function N0Inv(n: nat, f: Format): (v: nat)
    requires n % 2 == 1 && f.wordBytes > 0
    ensures 1 <= v < f.Word()
    ensures (n * v + 1) % f.Word() == 0
  {
    N0InvFacts(n, f);
    f.Word() - Inverse(n % f.Word(), 8 * f.wordBytes)
  }

  lemma N0InvFacts(n: nat, f: Format)
    requires n % 2 == 1 && f.wordBytes > 0
    ensures n % f.Word() % 2 == 1
    ensures var inv := Inverse(n % f.Word(), 8 * f.wordBytes);
            && inv < f.Word() && 1 <= f.Word() - inv < f.Word()
            && (n * (f.Word() - inv) + 1) % f.Word() == 0
  {
    hide Inverse, Pow2;
    LowWordOdd(n, f);
    NegatedInverse(n, Inverse(n % f.Word(), 8 * f.wordBytes), f.Word());
  }

  lemma LowWordOdd(n: nat, f: Format)
    requires n % 2 == 1 && f.wordBytes > 0
    ensures n % f.Word() % 2 == 1 && f.Word() > 1
  {
    var h := Pow2(8 * f.wordBytes - 1);
    assert f.Word() == 2 * h;
    Quotient(n, 2 * h);
    var q := n / (2 * h);
    assert q * (2 * h) == 2 * (q * h);
  }

  lemma NegatedInverse(n: nat, inv: nat, w: nat)
    requires w > 1 && inv < w && (n % w) * inv % w == 1
    ensures 1 <= w - inv < w && (n * (w - inv) + 1) % w == 0
  {
    var q, r := n / w, n % w;
    assert n == q * w + r;
    Distribute(q * w, r, inv);
    assert (q * w) * inv == (q * inv) * w;
    assert inv == 0 ==> r * inv == 0;
    var p := r * inv / w;
    assert r * inv == p * w + 1;
    Distribute(q * inv, p, w);
    assert n * inv == (q * inv + p) * w + 1;
    assert n * (w - inv) == n * w - n * inv;
    Distribute(n, -(q * inv + p), w);
    NegatedProduct(q * inv + p, w);
    assert n * (w - inv) + 1 == (n - (q * inv + p)) * w;
    ModShift(0, w, n - (q * inv + p));
  }

  /** The square of the Montgomery radix, reduced. */
  function RR(n: nat, f: Format): (v: nat)
    requires n >= 1
    ensures v < n
  {
    f.Radix() * f.Radix() % n
  }

  /**
   * What the first number is for: adding the multiple of the modulus it picks
   * always clears the low word, so that a reduction can shift it away.
   */
  lemma ReductionClearsAWord(n: nat, f: Format, t: nat)
    requires n % 2 == 1 && f.wordBytes > 0
    ensures (t + (t * N0Inv(n, f) % f.Word()) * n) % f.Word() == 0
  {
    hide N0Inv;
    ClearsAWord(n, N0Inv(n, f), t, f.Word());
  }

  lemma ClearsAWord(n: nat, v: nat, t: nat, w: nat)
    requires w >= 1 && (n * v + 1) % w == 0
    ensures (t + (t * v % w) * n) % w == 0
  {
    var q, m := t * v / w, t * v % w;
    var s := (n * v + 1) / w;
    assert t * v == q * w + m;
    assert n * v + 1 == s * w;
    Cleared(n, v, t, w, q, m, s);
    ModShift(0, w, t * s - q * n);
  }

  lemma Cleared(n: int, v: int, t: int, w: int, q: int, m: int, s: int)
    requires t * v == q * w + m && n * v + 1 == s * w
    ensures t + m * n == (t * s - q * n) * w
  {
    assert t * (n * v + 1) == t * (s * w);
    assert t * (s * w) == (t * s) * w;
    assert t * (n * v + 1) == t * (n * v) + t;
    assert t * (n * v) == (t * v) * n;
    Distribute(q * w, m, n);
    assert (q * w) * n == (q * n) * w;
    Distribute(t * s, -(q * n), w);
    NegatedProduct(q * n, w);
  }

  /** And the second: multiplying by it is multiplying by the radix twice. */
  lemma RadixSquared(n: nat, f: Format, x: nat)
    requires n >= 1
    ensures x * RR(n, f) % n == x * f.Radix() * f.Radix() % n
  {
    var v := f.Radix() * f.Radix();
    hide Pow2;
    Reduced(x, v, n);
    assert x * f.Radix() * f.Radix() == x * v;
  }

  lemma Reduced(x: nat, v: nat, n: nat)
    requires n >= 1
    ensures x * (v % n) % n == x * v % n
  {
    var q := v / n;
    Quotient(v, n);
    assert x * v == x * (v % n) + (x * q) * n by {
      Distribute(q * n, v % n, x);
      assert x * (q * n) == (x * q) * n;
    }
    ModShift(x * (v % n), n, x * q);
  }

  // ------------------------------------------------------------------------ the bytes

  function LittleEndian(v: nat, len: nat): (b: seq<Byte>)
    ensures |b| == len
    decreases len
  {
    if len == 0 then [] else [v % 256] + LittleEndian(v / 256, len - 1)
  }

  function Number(b: seq<Byte>): nat
    decreases |b|
  {
    if b == [] then 0 else b[0] + 256 * Number(b[1..])
  }

  lemma {:induction false} BytesHold(v: nat, len: nat)
    requires v < Pow2(8 * len)
    ensures Number(LittleEndian(v, len)) == v
    decreases len
  {
    if len > 0 {
      Pow2Adds(8, 8 * (len - 1));
      assert 8 + 8 * (len - 1) == 8 * len && Pow2(8) == 256;
      BytesHold(v / 256, len - 1);
      assert LittleEndian(v, len)[1..] == LittleEndian(v / 256, len - 1);
    }
  }

  lemma {:induction false} BytesMean(b: seq<Byte>)
    ensures Number(b) < Pow2(8 * |b|) && LittleEndian(Number(b), |b|) == b
    decreases |b|
  {
    if b != [] {
      var rest := Number(b[1..]);
      BytesMean(b[1..]);
      ByteShift(|b|);
      LowByte(b[0], rest, Pow2(8 * (|b| - 1)));
      assert Number(b) == b[0] + 256 * rest;
      hide Pow2, Number;
      assert LittleEndian(b[0] + 256 * rest, |b|) == [b[0]] + LittleEndian(rest, |b| - 1);
      assert b == [b[0]] + b[1..];
    }
  }

  lemma ByteShift(len: nat)
    requires len > 0
    ensures Pow2(8 * len) == 256 * Pow2(8 * (len - 1))
  {
    Pow2Adds(8, 8 * (len - 1));
    assert 8 + 8 * (len - 1) == 8 * len && Pow2(8) == 256;
  }

  lemma LowByte(low: Byte, rest: nat, p: nat)
    requires rest < p
    ensures (low + 256 * rest) % 256 == low && (low + 256 * rest) / 256 == rest && low + 256 * rest < 256 * p
  {
  }

  datatype PublicKey = PublicKey(n: nat, e: nat)

  /** Whether a key has a representation in this format at all. */
  predicate Representable(k: PublicKey, f: Format) {
    && f.wordBytes > 0 && f.words < f.Word()
    && k.n % 2 == 1 && k.n < f.Radix() && k.e < f.Word()
  }

  /** The structure Android reads, or None where packing it fails. */
  function Packed(k: PublicKey, f: Format): Option<seq<Byte>> {
    if !Representable(k, f) then None
    else Some(LittleEndian(f.words, f.wordBytes) + LittleEndian(N0Inv(k.n, f), f.wordBytes)
              + LittleEndian(k.n, f.Size()) + LittleEndian(RR(k.n, f), f.Size())
              + LittleEndian(k.e, f.wordBytes))
  }

  datatype Fields = Fields(words: nat, n0inv: nat, n: nat, rr: nat, e: nat)

  /** The fields as their reader cuts them out. */
  function Unpacked(b: seq<Byte>, f: Format): Fields
    requires |b| == 3 * f.wordBytes + 2 * f.Size()
  {
    var w, size := f.wordBytes, f.Size();
    Fields(Number(b[..w]), Number(b[w..2 * w]), Number(b[2 * w..2 * w + size]),
           Number(b[2 * w + size..2 * w + 2 * size]), Number(b[2 * w + 2 * size..]))
  }

  /**
   * The encoding is exact. Every odd modulus that fits is packed, every field
   * fits its width, and cutting the bytes up again gives back the key and the
   * two numbers derived from it.
   */
  lemma PackedIsExact(k: PublicKey, f: Format)
    ensures Packed(k, f).Some? <==> Representable(k, f)
    ensures Packed(k, f).Some? ==>
              var b := Packed(k, f).value;
              && |b| == 3 * f.wordBytes + 2 * f.Size()
              && Unpacked(b, f) == Fields(f.words, N0Inv(k.n, f), k.n, RR(k.n, f), k.e)
  {
    if Representable(k, f) {
      hide Pow2, LittleEndian, Number, RR, N0Inv;
      var inv, rr := N0Inv(k.n, f), RR(k.n, f);
      BytesHold(f.words, f.wordBytes);
      BytesHold(inv, f.wordBytes);
      BytesHold(k.n, f.Size());
      BytesHold(rr, f.Size());
      BytesHold(k.e, f.wordBytes);
      Slices(LittleEndian(f.words, f.wordBytes), LittleEndian(inv, f.wordBytes), LittleEndian(k.n, f.Size()),
             LittleEndian(rr, f.Size()), LittleEndian(k.e, f.wordBytes), f.wordBytes, f.Size());
    }
  }

  lemma WordOf32()
    ensures Pow2(32) == 0x1_0000_0000
  {
    assert Pow2(8) == 256;
    Pow2Adds(8, 8);
    Pow2Adds(16, 16);
  }

  /**
   * What Android reads, byte by byte: 524 bytes, beginning with the word 64 in
   * little-endian order, then n0inv with n * n0inv = -1 modulo 2^32, the modulus,
   * the square of the radix 2^2048 reduced by it, and the exponent in the last word.
   */
  lemma AndroidLayout(k: PublicKey)
    ensures Packed(k, ANDROID).Some? ==>
              var b := Packed(k, ANDROID).value;
              && |b| == 524 && b[..4] == [64, 0, 0, 0]
              && 1 <= Number(b[4..8]) < 0x1_0000_0000 && (k.n * Number(b[4..8]) + 1) % 0x1_0000_0000 == 0
              && Number(b[8..264]) == k.n
              && k.n > 0 && Number(b[264..520]) == Pow2(8 * 2 * ANDROID.Size()) % k.n
              && Number(b[520..]) == k.e
  {
    if Packed(k, ANDROID).Some? {
      FirstWord(k);
      FieldsFollow(k);
      AndroidNumbers(k.n);
      hide *;
    }
  }

  /** What the two derived numbers of a 2048-bit modulus are. */
  lemma AndroidNumbers(n: nat)
    requires n % 2 == 1
    ensures 1 <= N0Inv(n, ANDROID) < 0x1_0000_0000 && (n * N0Inv(n, ANDROID) + 1) % 0x1_0000_0000 == 0
    ensures n > 0 && RR(n, ANDROID) == Pow2(8 * 2 * ANDROID.Size()) % n
  {
    WordOf32();
    assert ANDROID.Word() == 0x1_0000_0000;
    hide Pow2, N0Inv;
    Pow2Adds(8 * ANDROID.Size(), 8 * ANDROID.Size());
  }

  lemma FirstWord(k: PublicKey)
    ensures Packed(k, ANDROID).Some? ==> var b := Packed(k, ANDROID).value; |b| == 524 && b[..4] == [64, 0, 0, 0]
  {
    hide Pow2, Number, N0Inv, RR, LittleEndian;
    if Packed(k, ANDROID).Some? {
      SixtyFour();
    }
  }

  lemma FieldsFollow(k: PublicKey)
    ensures Packed(k, ANDROID).Some? && |Packed(k, ANDROID).value| == 524 ==>
              var b := Packed(k, ANDROID).value;
              && k.n % 2 == 1 && Number(b[4..8]) == N0Inv(k.n, ANDROID)
              && Number(b[8..264]) == k.n && Number(b[264..520]) == RR(k.n, ANDROID) && Number(b[520..]) == k.e
  {
    if Packed(k, ANDROID).Some? {
      PackedIsExact(k, ANDROID);
      hide Pow2, Number, N0Inv, RR, LittleEndian;
    }
  }

  lemma SixtyFour()
    ensures LittleEndian(64, 4) == [64, 0, 0, 0]
  {
  }

  lemma Slices(a: seq<Byte>, b: seq<Byte>, c: seq<Byte>, d: seq<Byte>, e: seq<Byte>, w: nat, size: nat)
    requires |a| == w && |b| == w && |c| == size && |d| == size && |e| == w
    ensures var all := a + b + c + d + e;
            && |all| == 3 * w + 2 * size
            && all[..w] == a && all[w..2 * w] == b && all[2 * w..2 * w + size] == c
            && all[2 * w + size..2 * w + 2 * size] == d && all[2 * w + 2 * size..] == e
  {
  }

  // ------------------------------------------------------------------------- the text

  type Sextet = v: nat | v < 64

  /** The Base64 alphabet of section 4 of RFC 4648. */
  function CharOf(v: Sextet): char {
    if v < 26 then ('A' as int + v) as char
    else if v < 52 then ('a' as int + v - 26) as char
    else if v < 62 then ('0' as int + v - 52) as char
    else if v == 62 then '+' else '/'
  }

  function ValueOf(c: char): Option<Sextet> {
    if 'A' <= c <= 'Z' then Some(c as int - 'A' as int)
    else if 'a' <= c <= 'z' then Some(c as int - 'a' as int + 26)
    else if '0' <= c <= '9' then Some(c as int - '0' as int + 52)
    else if c == '+' then Some(62) else if c == '/' then Some(63) else None
  }

  lemma ValueOfChar(v: Sextet)
    ensures ValueOf(CharOf(v)) == Some(v) && CharOf(v) != '=' && CharOf(v) != ' '
  {
  }

  function Encoded(b: seq<Byte>): string
    decreases |b|
  {
    if b == [] then ""
    else if |b| == 1 then [CharOf(b[0] / 4), CharOf(b[0] % 4 * 16), '=', '=']
    else if |b| == 2 then
      [CharOf(b[0] / 4), CharOf(b[0] % 4 * 16 + b[1] / 16), CharOf(b[1] % 16 * 4), '=']
    else Group(b[0], b[1], b[2]) + Encoded(b[3..])
  }

  function Group(a: Byte, b: Byte, c: Byte): string {
    [CharOf(a / 4), CharOf(a % 4 * 16 + b / 16), CharOf(b % 16 * 4 + c / 64), CharOf(c % 64)]
  }

  /** Strict decoding: whole groups of the alphabet, padding only at the very end. */
  function Decoded(s: string): Option<seq<Byte>>
    decreases |s|
  {
    if s == "" then Some([])
    else if |s| < 4 then None
    else
      var a, b, c, d := ValueOf(s[0]), ValueOf(s[1]), ValueOf(s[2]), ValueOf(s[3]);
      if a.None? || b.None? then None
      else
        var first := a.value * 4 + b.value / 16;
        if |s| == 4 && s[2] == '=' && s[3] == '=' then Some([first])
        else if c.None? then None
        else
          var second := b.value % 16 * 16 + c.value / 4;
          if |s| == 4 && s[3] == '=' then Some([first, second])
          else if d.None? then None
          else
            var rest := Decoded(s[4..]);
            if rest.None? then None
            else Some([first, second, c.value % 4 * 64 + d.value] + rest.value)
  }

  /** Test vectors of section 10 of RFC 4648, and the last two letters of the alphabet. */
  lemma KnownTexts()
    ensures Encoded([102, 111, 111]) == "Zm9v"
    ensures Encoded([102, 111]) == "Zm8="
    ensures Encoded([102]) == "Zg=="
    ensures Encoded([]) == ""
    ensures CharOf(62) == '+' && CharOf(63) == '/' && CharOf(0) == 'A' && CharOf(26) == 'a' && CharOf(52) == '0'
  {
  }

  lemma SextetsHold(a: Byte, b: Byte, c: Byte)
    ensures a / 4 * 4 + (a % 4 * 16) / 16 == a
    ensures a / 4 * 4 + (a % 4 * 16 + b / 16) / 16 == a
    ensures (a % 4 * 16 + b / 16) % 16 * 16 + (b % 16 * 4) / 4 == b
    ensures (a % 4 * 16 + b / 16) % 16 * 16 + (b % 16 * 4 + c / 64) / 4 == b
    ensures (b % 16 * 4 + c / 64) % 4 * 64 + c % 64 == c
  {
  }

  lemma {:induction false} Base64RoundTrip(b: seq<Byte>)
    ensures Decoded(Encoded(b)) == Some(b)
    decreases |b|
  {
    hide CharOf, ValueOf;
    if b != [] {
      var b1, b2 := if |b| > 1 then b[1] else 0, if |b| > 2 then b[2] else 0;
      SextetsHold(b[0], b1, b2);
      ValueOfChar(b[0] / 4);
      ValueOfChar(b[0] % 4 * 16);
      ValueOfChar(b[0] % 4 * 16 + b1 / 16);
      ValueOfChar(b1 % 16 * 4);
      ValueOfChar(b1 % 16 * 4 + b2 / 64);
      ValueOfChar(b2 % 64);
      if |b| >= 3 {
        Base64RoundTrip(b[3..]);
        GroupRoundTrip(b);
      } else if |b| == 2 {
        assert b == [b[0], b[1]];
      } else {
        assert b == [b[0]];
      }
    }
  }

  /** The four sextets of three bytes. */
  function Sextets(a: Byte, b: Byte, c: Byte): (Sextet, Sextet, Sextet, Sextet) {
    (a / 4, a % 4 * 16 + b / 16, b % 16 * 4 + c / 64, c % 64)
  }

  lemma SextetsSpell(a: Byte, b: Byte, c: Byte)
    ensures var (v, w, x, y) := Sextets(a, b, c);
            v * 4 + w / 16 == a && w % 16 * 16 + x / 4 == b && x % 4 * 64 + y == c
  {
    SextetsHold(a, b, c);
  }

  lemma EncodedGroup(b: seq<Byte>)
    requires |b| >= 3
    ensures var (v, w, x, y) := Sextets(b[0], b[1], b[2]);
            Encoded(b) == [CharOf(v), CharOf(w), CharOf(x), CharOf(y)] + Encoded(b[3..])
  {
    hide CharOf, Group;
    assert Encoded(b) == Group(b[0], b[1], b[2]) + Encoded(b[3..]);
    hide Encoded;
    GroupSpells(b[0], b[1], b[2]);
  }

  lemma GroupSpells(a: Byte, b: Byte, c: Byte)
    ensures var (v, w, x, y) := Sextets(a, b, c);
            Group(a, b, c) == [CharOf(v), CharOf(w), CharOf(x), CharOf(y)]
  {
    hide CharOf;
  }

  lemma GroupRoundTrip(b: seq<Byte>)
    requires |b| >= 3 && Decoded(Encoded(b[3..])) == Some(b[3..])
    ensures Decoded(Encoded(b)) == Some(b)
  {
    hide CharOf, ValueOf, Decoded, Encoded, Sextets;
    var (v, w, x, y) := Sextets(b[0], b[1], b[2]);
    SextetsSpell(b[0], b[1], b[2]);
    EncodedGroup(b);
    GroupDecodes(v, w, x, y, Encoded(b[3..]), b[3..]);
    assert b == [b[0], b[1], b[2]] + b[3..];
  }

  /** A whole group of four decodes to the three bytes its bits spell. */
  lemma GroupDecodes(v: Sextet, w: Sextet, x: Sextet, y: Sextet, rest: string, bytes: seq<Byte>)
    requires Decoded(rest) == Some(bytes)
    ensures Decoded([CharOf(v), CharOf(w), CharOf(x), CharOf(y)] + rest)
            == Some([v * 4 + w / 16, w % 16 * 16 + x / 4, x % 4 * 64 + y] + bytes)
  {
    ValueOfChar(v);
    ValueOfChar(w);
    ValueOfChar(x);
    ValueOfChar(y);
    hide CharOf, ValueOf;
    var s := [CharOf(v), CharOf(w), CharOf(x), CharOf(y)] + rest;
    assert s[4..] == rest;
  }

  lemma {:induction false} EncodedHasNoSpace(b: seq<Byte>)
    ensures ' ' !in Encoded(b)
    decreases |b|
  {
    forall v: Sextet ensures CharOf(v) != ' ' {
      ValueOfChar(v);
    }
    hide CharOf;
    if |b| >= 3 { EncodedHasNoSpace(b[3..]); }
  }

  /** The text before the first space. */
  function Head(s: string): string
    decreases |s|
  {
    if s == "" || s[0] == ' ' then "" else [s[0]] + Head(s[1..])
  }

  lemma {:induction false} HeadOf(s: string, rest: string)
    requires ' ' !in s && rest != "" && rest[0] == ' '
    ensures Head(s + rest) == s
    decreases |s|
  {
    if s == "" {
      assert s + rest == rest;
    } else {
      assert (s + rest)[1..] == s[1..] + rest;
      HeadOf(s[1..], rest);
    }
  }

  /** The stored public key, or None where Android's form cannot hold it. */
  function AndroidKey(k: PublicKey): Option<string> {
    var packed := Packed(k, ANDROID);
    if packed.None? then None else Some(Encoded(packed.value) + COMMENT)
  }

  /** The name of a key's generation: the hash of the bytes its text stands for. */
  function GenerationId(text: string, sha256: seq<Byte> -> string): Option<string> {
    var bytes := Decoded(Head(text));
    if bytes.None? then None else Some(sha256(bytes.value))
  }

  /** The generation is named by exactly the bytes that were packed, whatever the comment. */
  lemma GenerationHashesTheKey(k: PublicKey, sha256: seq<Byte> -> string)
    requires AndroidKey(k).Some?
    ensures Packed(k, ANDROID).Some?
    ensures GenerationId(AndroidKey(k).value, sha256) == Some(sha256(Packed(k, ANDROID).value))
  {
    hide Packed, Encoded, Decoded;
    var packed := Packed(k, ANDROID).value;
    Base64RoundTrip(packed);
    EncodedHasNoSpace(packed);
    HeadOf(Encoded(packed), COMMENT);
  }

  /** Different keys have different texts, and, short of a hash collision, different generations. */
  lemma KeysAreToldApart(j: PublicKey, k: PublicKey, sha256: seq<Byte> -> string)
    requires AndroidKey(j).Some? && AndroidKey(k).Some? && j != k
    requires forall a: seq<Byte>, b: seq<Byte> :: sha256(a) == sha256(b) ==> a == b
    ensures AndroidKey(j) != AndroidKey(k)
    ensures GenerationId(AndroidKey(j).value, sha256) != GenerationId(AndroidKey(k).value, sha256)
  {
    hide Packed, Encoded, Decoded, GenerationId, AndroidKey, Unpacked;
    PackedSome(j);
    PackedSome(k);
    PackedIsExact(j, ANDROID);
    PackedIsExact(k, ANDROID);
    GenerationHashesTheKey(j, sha256);
    GenerationHashesTheKey(k, sha256);
  }

  lemma PackedSome(k: PublicKey)
    ensures AndroidKey(k).Some? ==> Packed(k, ANDROID).Some?
  {
    hide Packed;
  }
}
