// Machine words and byte strings shared by the hash functions. Words that carry message
// data are bit-vectors; lengths are numbers below a power of two, with `%` and `/` for the
// masks and shifts that C applies to them.

module Words {

  type Byte = bv8
  type Word = bv32
  type Amount = bv5    // how far a word is rotated

  const TWO_32: nat := 0x1_0000_0000
  const TWO_64: nat := 0x1_0000_0000_0000_0000

  type U32 = n: nat | n < TWO_32
  type U64 = n: nat | n < TWO_64

  lemma ModShift(q: int, low: int)
    ensures (q * TWO_64 + low) % TWO_64 == low % TWO_64
  {
  }

  lemma AddsModulo(x: int, y: int)
    ensures (x % TWO_64 + y) % TWO_64 == (x + y) % TWO_64
  {
    ModShift(-(x / TWO_64), x + y);
  }

  lemma SameRemainder(a: nat, q: nat, d: nat)
    requires d > 0
    ensures (q * d + a) % d == a % d
  {
    var r := a % d;
    assert q * d + a == (q + a / d) * d + r;
    Remainder(q + a / d, r, d);
  }

  lemma Remainder(q: nat, r: nat, d: nat)
    requires r < d
    ensures (q * d + r) % d == r
  {
    var n := q * d + r;
    var k := n / d - q;
    assert n == d * (n / d) + n % d;
    assert k * d == r - n % d;
    Multiples(k, d);
  }

  lemma Multiples(k: int, d: int)
    requires d > 0
    ensures k > 0 ==> k * d >= d
    ensures k < 0 ==> k * d <= -d
  {
  }

  // Addition modulo 2^32, exclusive or and rotation are named so that proofs about whole
  // computations can treat them as abstract operations.
  function Add(x: Word, y: Word): Word {
    x + y
  }

  function Xor(x: Word, y: Word): Word {
    x ^ y
  }

  // ROL and RORc: rotation of a 32-bit word.
  function Rol(x: Word, n: Amount): Word {
    (x << n) | (x >> (32 - (n as bv6)))
  }

  function Ror(x: Word, n: Amount): Word {
    (x >> n) | (x << (32 - (n as bv6)))
  }

  // ------------------------------------------------------------ bytes and words

  // A byte shifted to position `i` of a little-endian word.
  function At(b: Byte, i: nat): Word
    requires i < 4
  {
    match i
    case 0 => b as Word
    case 1 => (b as Word) << 8
    case 2 => (b as Word) << 16
    case _ => (b as Word) << 24
  }

  // BYTES_TO_DWORD and LOAD32L
  function LoadLE(b0: Byte, b1: Byte, b2: Byte, b3: Byte): Word {
    At(b3, 3) | At(b2, 2) | At(b1, 1) | At(b0, 0)
  }

  // LOAD32H
  function LoadBE(b0: Byte, b1: Byte, b2: Byte, b3: Byte): Word {
    LoadLE(b3, b2, b1, b0)
  }

  // STORE32L
  function StoreLE(w: Word): (s: seq<Byte>)
    ensures |s| == 4
  {
    [(w & 0xff) as Byte, ((w >> 8) & 0xff) as Byte, ((w >> 16) & 0xff) as Byte, ((w >> 24) & 0xff) as Byte]
  }

  function StoreBE(w: Word): (s: seq<Byte>)
    ensures |s| == 4
  {
    var s := StoreLE(w);
    [s[3], s[2], s[1], s[0]]
  }

  // Exclusive-or into a byte that is still zero stores it.
  lemma XorStores(s: seq<Byte>, i: nat, b: Byte)
    requires |s| == 4 && i < 4 && s[i] == 0
    ensures var t := s[i := b]; Xor(LoadLE(s[0], s[1], s[2], s[3]), At(b, i)) == LoadLE(t[0], t[1], t[2], t[3])
  {
    hide Xor, LoadLE, At;
    match i
    case 0 => XorStores0(s[1], s[2], s[3], b);
    case 1 => XorStores1(s[0], s[2], s[3], b);
    case 2 => XorStores2(s[0], s[1], s[3], b);
    case _ => XorStores3(s[0], s[1], s[2], b);
  }

  lemma XorStores0(b1: Byte, b2: Byte, b3: Byte, b: Byte)
    ensures Xor(LoadLE(0, b1, b2, b3), At(b, 0)) == LoadLE(b, b1, b2, b3)
  {
  }

  lemma XorStores1(b0: Byte, b2: Byte, b3: Byte, b: Byte)
    ensures Xor(LoadLE(b0, 0, b2, b3), At(b, 1)) == LoadLE(b0, b, b2, b3)
  {
  }

  lemma XorStores2(b0: Byte, b1: Byte, b3: Byte, b: Byte)
    ensures Xor(LoadLE(b0, b1, 0, b3), At(b, 2)) == LoadLE(b0, b1, b, b3)
  {
  }

  lemma XorStores3(b0: Byte, b1: Byte, b2: Byte, b: Byte)
    ensures Xor(LoadLE(b0, b1, b2, 0), At(b, 3)) == LoadLE(b0, b1, b2, b)
  {
    DisjointXor(LoadLE(b0, b1, b2, 0), At(b, 3));
  }

  lemma DisjointXor(x: Word, y: Word)
    requires x < 0x100_0000 && y & 0xff_ffff == 0
    ensures Xor(x, y) == y | x
  {
  }

  // Byte `i` of a number.
  function ByteOf(n: nat, i: nat): Byte {
    if i == 0 then (n % 0x100) as Byte else ByteOf(n / 0x100, i - 1)
  }

  // A 32-bit number as a word.
  function WordOf(n: U32): Word {
    LoadLE(ByteOf(n, 0), ByteOf(n, 1), ByteOf(n, 2), ByteOf(n, 3))
  }

  // STORE64L and STORE64H
  function StoreLE64(n: U64): (s: seq<Byte>)
    ensures |s| == 8
  {
    seq(8, (i: nat) requires i < 8 => ByteOf(n, i))
  }

  function StoreBE64(n: U64): (s: seq<Byte>)
    ensures |s| == 8
  {
    seq(8, (i: nat) requires i < 8 => ByteOf(n, 7 - i))
  }

  function Base(k: nat): (r: nat)
    ensures r > 0
  {
    if k == 0 then 1 else 0x100 * Base(k - 1)
  }

  // The bytes of a number in two parts are the bytes of the parts.
  lemma {:induction false} BytesOfParts(high: nat, low: nat, k: nat, i: nat)
    requires low < Base(k)
    ensures i < k ==> ByteOf(high * Base(k) + low, i) == ByteOf(low, i)
    ensures ByteOf(high * Base(k) + low, i + k) == ByteOf(high, i)
    decreases k
  {
    if k > 0 {
      var n := high * Base(k) + low;
      assert n == 0x100 * (high * Base(k - 1)) + low;
      assert n / 0x100 == high * Base(k - 1) + low / 0x100 && n % 0x100 == low % 0x100;
      BytesOfParts(high, low / 0x100, k - 1, if i > 0 then i - 1 else 0);
      BytesOfParts(high, low / 0x100, k - 1, i);
    }
  }

  // ------------------------------------------------------------- blocks of 64

  function Zeros(n: nat): (s: seq<Byte>)
    ensures |s| == n
  {
    seq(n, _ => 0)
  }

  type Block = s: seq<Byte> | |s| == 64 witness Zeros(64)

  function WordsLE(b: Block): (x: seq<Word>)
    ensures |x| == 16
  {
    seq(16, (i: nat) requires i < 16 => LoadLE(b[4 * i], b[4 * i + 1], b[4 * i + 2], b[4 * i + 3]))
  }

  function WordsBE(b: Block): (x: seq<Word>)
    ensures |x| == 16
  {
    seq(16, (i: nat) requires i < 16 => LoadBE(b[4 * i], b[4 * i + 1], b[4 * i + 2], b[4 * i + 3]))
  }

  // A chaining value run over the complete blocks of `m`.
  function Fold<S>(compress: (S, Block) -> S, s: S, m: seq<Byte>): S
    decreases |m|
  {
    if |m| < 64 then s else Fold(compress, compress(s, m[..64]), m[64..])
  }

  lemma {:induction false} FoldAppends<S>(compress: (S, Block) -> S, s: S, m: seq<Byte>, n: seq<Byte>)
    requires |m| % 64 == 0
    ensures Fold(compress, s, m + n) == Fold(compress, Fold(compress, s, m), n)
    decreases |m|
  {
    if |m| < 64 {
      assert m + n == n;
    } else {
      assert (m + n)[..64] == m[..64] && (m + n)[64..] == m[64..] + n;
      FoldAppends(compress, compress(s, m[..64]), m[64..], n);
    }
  }

  lemma FoldNothing<S>(compress: (S, Block) -> S, s: S)
    ensures Fold(compress, s, []) == s
  {
  }

  lemma FoldOne<S>(compress: (S, Block) -> S, s: S, b: Block)
    ensures Fold(compress, s, b) == compress(s, b)
  {
    assert b[..64] == b;
  }

  // Section 5.1.1 of FIPS 180-4, and the same rule in clause 7 of ISO/IEC 10118-3:2004: a one
  // bit, the fewest zero bits that leave eight bytes free in the last block, the length.
  function Padding(tail: nat, length: seq<Byte>): (p: seq<Byte>)
    requires tail < 64 && |length| == 8
    ensures (tail + |p|) % 64 == 0
  {
    [0x80] + Zeros(if tail < 56 then 55 - tail else 119 - tail) + length
  }

  function Tail(m: seq<Byte>): (t: seq<Byte>)
    ensures |t| == |m| % 64
  {
    m[|m| - |m| % 64..]
  }

  function Full(m: seq<Byte>): (f: seq<Byte>)
    ensures |f| % 64 == 0
  {
    m[..|m| - |m| % 64]
  }

  lemma NothingFull()
    ensures Full([]) == [] && Tail([]) == []
  {
  }

  // The length of a message in bits, as the 64-bit field holds it.
  function BitLength(m: seq<Byte>): U64 {
    |m| * 8 % TWO_64
  }

  // The chaining value after the whole padded message.
  function FoldPadded<S>(compress: (S, Block) -> S, s: S, m: seq<Byte>, length: seq<Byte>): S
    requires |length| == 8
  {
    Fold(compress, s, m + Padding(|m| % 64, length))
  }

  // It can be had from the value after the complete blocks and the tail.
  lemma FoldPaddedFromTail<S>(compress: (S, Block) -> S, s: S, m: seq<Byte>, length: seq<Byte>)
    requires |length| == 8
    ensures FoldPadded(compress, s, m, length)
         == Fold(compress, Fold(compress, s, Full(m)), Tail(m) + Padding(|m| % 64, length))
  {
    var p := Padding(|m| % 64, length);
    assert m + p == Full(m) + (Tail(m) + p);
    FoldAppends(compress, s, Full(m), Tail(m) + p);
  }

  // Finishing leaves one or two blocks.
  lemma PaddedBlocks<S>(compress: (S, Block) -> S, s: S, tail: seq<Byte>, length: seq<Byte>, first: seq<Byte>, last: Block)
    requires |tail| < 64 && |length| == 8
    requires if |tail| > 55 then first == tail + [0x80] + Zeros(63 - |tail|) && last == Zeros(56) + length
             else first == [] && last == tail + [0x80] + Zeros(55 - |tail|) + length
    ensures tail + Padding(|tail|, length) == first + last
    ensures Fold(compress, s, tail + Padding(|tail|, length))
         == compress(if first == [] then s else compress(s, first), last)
  {
    hide Fold, Padding;
    PaddedText(tail, length, first, last);
    if first != [] {
      FoldAppends(compress, s, first, last);
      FoldOne(compress, s, first);
      FoldOne(compress, compress(s, first), last);
    } else {
      assert first + last == last;
      FoldOne(compress, s, last);
    }
  }

  lemma PaddedText(tail: seq<Byte>, length: seq<Byte>, first: seq<Byte>, last: seq<Byte>)
    requires |tail| < 64 && |length| == 8
    requires if |tail| > 55 then first == tail + [0x80] + Zeros(63 - |tail|) && last == Zeros(56) + length
             else first == [] && last == tail + [0x80] + Zeros(55 - |tail|) + length
    ensures tail + Padding(|tail|, length) == first + last
  {
  }
}

// What the operations on words mean.
module WordLaws {
  import opened Words

  // The sum modulo 2^32.
  lemma AddIsModular(x: Word, y: Word)
    ensures Add(x, y) as bv64 == (x as bv64 + y as bv64) & 0xffff_ffff
  {
  }

  // In a register of twice the size, what a shift pushes out of one half comes in at the other end.
  lemma RolTurns(x: Word, n: Amount)
    ensures var w := (x as bv64) << n; Rol(x, n) as bv64 == (w & 0xffff_ffff) | (w >> 32)
  {
  }

  lemma RorTurns(x: Word, n: Amount)
    ensures var w := ((x as bv64) << 32) >> n; Ror(x, n) as bv64 == (w >> 32) | (w & 0xffff_ffff)
  {
  }

  // The first byte of a word in memory is its lowest, or its highest.
  lemma LoadPlacesBytes(b0: Byte, b1: Byte, b2: Byte, b3: Byte)
    ensures var w := LoadLE(b0, b1, b2, b3);
            w & 0xff == b0 as Word && (w >> 8) & 0xff == b1 as Word && (w >> 16) & 0xff == b2 as Word && w >> 24 == b3 as Word
    ensures LoadBE(b3, b2, b1, b0) == LoadLE(b0, b1, b2, b3)
  {
  }

  // Stored words are loaded back.
  lemma StoresAreLoaded(w: Word)
    ensures var s := StoreLE(w); LoadLE(s[0], s[1], s[2], s[3]) == w
    ensures var s := StoreBE(w); LoadBE(s[0], s[1], s[2], s[3]) == w
  {
  }

  // Byte `i` of a number is its digit at that place, to the base 256.
  lemma {:induction false} ByteIsDigit(n: nat, i: nat)
    ensures ByteOf(n, i) == (n / Base(i) % 0x100) as Byte
    decreases i
  {
    if i > 0 {
      ByteIsDigit(n / 0x100, i - 1);
      DivideTwice(n, Base(i - 1));
    }
  }

  lemma DivideTwice(n: nat, b: nat)
    requires b > 0
    ensures n / 0x100 / b == n / (0x100 * b)
  {
    var a, c := n / 0x100, n % 0x100;
    var q, r := a / b, a % b;
    assert a == q * b + r;
    Regrouped(q, b, r, c);
    QuotientOf(q, 0x100 * r + c, 0x100 * b);
  }

  lemma Regrouped(q: nat, b: nat, r: nat, c: nat)
    ensures 0x100 * (q * b + r) + c == q * (0x100 * b) + (0x100 * r + c)
  {
  }

  lemma QuotientOf(q: nat, r: nat, d: nat)
    requires r < d
    ensures (q * d + r) / d == q
  {
    var n := q * d + r;
    Remainder(q, r, d);
    assert n == d * (n / d) + n % d;
    var k := n / d - q;
    assert k * d == 0;
    Multiples(k, d);
  }

  // A length is stored from its lowest byte, or from its highest.
  lemma StoresDigits(n: U64, i: nat)
    requires i < 8
    ensures StoreLE64(n)[i] == StoreBE64(n)[7 - i] == (n / Base(i) % 0x100) as Byte
  {
    ByteIsDigit(n, i);
    hide ByteOf, Base;
  }
}

// What the hash states of both libtom files have in common.
module Tomcrypt {
  import opened Words

  datatype Status = CRYPT_OK | CRYPT_INVALID_ARG

  // What HASH_PROCESS leaves behind after the message `m`; that macro is not part of this model.
  ghost predicate Context<S(!new)>(onBlock: (S, Block) -> S, iv: S, h: S, rest: seq<Byte>, length: U64, m: seq<Byte>) {
    && h == Fold(onBlock, iv, Full(m))
    && rest == Tail(m)
    && length == |Full(m)| * 8 % TWO_64
  }

  lemma NothingAbsorbed<S(!new)>(onBlock: (S, Block) -> S, iv: S)
    ensures Context(onBlock, iv, iv, [], 0, [])
  {
    hide Full, Tail, Fold;
    FoldNothing(onBlock, iv);
    NothingFull();
  }

  lemma TailIsShort<S(!new)>(onBlock: (S, Block) -> S, iv: S, h: S, rest: seq<Byte>, length: U64, m: seq<Byte>)
    requires Context(onBlock, iv, h, rest, length, m)
    ensures |rest| == |m| % 64
  {
    hide Fold;
  }

  // The loops that pad the buffer with zero bytes (rmd160.c:381-383 and 389-391, sha256.c:261-263
  // and 269-271).
  method ZeroFill(buf: array<Byte>, curlen: nat, limit: nat) returns (n: nat)
    requires buf.Length == 64 && curlen <= limit <= 64
    modifies buf
    ensures n == limit && buf[..limit] == old(buf[..curlen]) + Zeros(limit - curlen)
  {
    n := curlen;
    while n < limit
      invariant curlen <= n <= limit && buf[..n] == old(buf[..curlen]) + Zeros(n - curlen)
    {
      buf[n] := 0;
      n := n + 1;
    }
  }
}
