// SHA-256 (libtom/sha256.c). The rolled loop that shifts its registers and the unrolled rounds
// that rotate their arguments are both proved against section 6.2.2 of FIPS 180-4.

module Sha256Spec {
  import opened Words

  // Section 4.1.2.
  function Ch(x: Word, y: Word, z: Word): Word {
    (x & y) ^ (!x & z)
  }

  function Maj(x: Word, y: Word, z: Word): Word {
    (x & y) ^ (x & z) ^ (y & z)
  }

  function BigSigma0(x: Word): Word {
    Ror(x, 2) ^ Ror(x, 13) ^ Ror(x, 22)
  }

  function BigSigma1(x: Word): Word {
    Ror(x, 6) ^ Ror(x, 11) ^ Ror(x, 25)
  }

  function SmallSigma0(x: Word): Word {
    Ror(x, 7) ^ Ror(x, 18) ^ (x >> 3)
  }

  function SmallSigma1(x: Word): Word {
    Ror(x, 17) ^ Ror(x, 19) ^ (x >> 10)
  }

  // Section 4.2.2, in the rows of eight in which the standard prints it.
  function KRow(g: nat): (r: seq<Word>)
    ensures |r| == 8
  {
    match g
    case 0 => [0x428a_2f98, 0x7137_4491, 0xb5c0_fbcf, 0xe9b5_dba5, 0x3956_c25b, 0x59f1_11f1, 0x923f_82a4, 0xab1c_5ed5]
    case 1 => [0xd807_aa98, 0x1283_5b01, 0x2431_85be, 0x550c_7dc3, 0x72be_5d74, 0x80de_b1fe, 0x9bdc_06a7, 0xc19b_f174]
    case 2 => [0xe49b_69c1, 0xefbe_4786, 0x0fc1_9dc6, 0x240c_a1cc, 0x2de9_2c6f, 0x4a74_84aa, 0x5cb0_a9dc, 0x76f9_88da]
    case 3 => [0x983e_5152, 0xa831_c66d, 0xb003_27c8, 0xbf59_7fc7, 0xc6e0_0bf3, 0xd5a7_9147, 0x06ca_6351, 0x1429_2967]
    case 4 => [0x27b7_0a85, 0x2e1b_2138, 0x4d2c_6dfc, 0x5338_0d13, 0x650a_7354, 0x766a_0abb, 0x81c2_c92e, 0x9272_2c85]
    case 5 => [0xa2bf_e8a1, 0xa81a_664b, 0xc24b_8b70, 0xc76c_51a3, 0xd192_e819, 0xd699_0624, 0xf40e_3585, 0x106a_a070]
    case 6 => [0x19a4_c116, 0x1e37_6c08, 0x2748_774c, 0x34b0_bcb5, 0x391c_0cb3, 0x4ed8_aa4a, 0x5b9c_ca4f, 0x682e_6ff3]
    case _ => [0x748f_82ee, 0x78a5_636f, 0x84c8_7814, 0x8cc7_0208, 0x90be_fffa, 0xa450_6ceb, 0xbef9_a3f7, 0xc671_78f2]
  }

  function K(i: nat): Word {
    KRow(i / 8)[i % 8]
  }

  // Section 6.2.2, step 1: the message schedule.
  function Scheduled(b: Block, t: nat): Word {
    if t < 16 then WordsBE(b)[t]
    else Add(Add(Add(SmallSigma1(Scheduled(b, t - 2)), Scheduled(b, t - 7)), SmallSigma0(Scheduled(b, t - 15))),
             Scheduled(b, t - 16))
  }

  function Schedule(b: Block): (w: seq<Word>)
    ensures |w| == 64
  {
    seq(64, (t: nat) => Scheduled(b, t))
  }

  // The working variables.
  datatype Vars = Vars(a: Word, b: Word, c: Word, d: Word, e: Word, f: Word, g: Word, h: Word)

  // Step 3, with the constant and the schedule word of one round.
  function Round(v: Vars, k: Word, w: Word): Vars {
    var t1 := Add(Add(Add(Add(v.h, BigSigma1(v.e)), Ch(v.e, v.f, v.g)), k), w);
    var t2 := Add(BigSigma0(v.a), Maj(v.a, v.b, v.c));
    Vars(Add(t1, t2), v.a, v.b, v.c, Add(v.d, t1), v.e, v.f, v.g)
  }

  // The first `n` rounds.
  function Rounds(n: nat, v: Vars, w: seq<Word>): Vars
    requires n <= |w|
  {
    if n == 0 then v else Round(Rounds(n - 1, v, w), K(n - 1), w[n - 1])
  }

  type Chain = s: seq<Word> | |s| == 8 witness [0, 0, 0, 0, 0, 0, 0, 0]

  function Start(h: Chain): Vars {
    Vars(h[0], h[1], h[2], h[3], h[4], h[5], h[6], h[7])
  }

  // Steps 2 to 4.
  function OnBlock(h: Chain, b: Block): Chain {
    var v := Rounds(64, Start(h), Schedule(b));
    [Add(v.a, h[0]), Add(v.b, h[1]), Add(v.c, h[2]), Add(v.d, h[3]),
     Add(v.e, h[4]), Add(v.f, h[5]), Add(v.g, h[6]), Add(v.h, h[7])]
  }

  function Absorb(h: Chain, m: seq<Byte>): Chain {
    Fold<Chain>(OnBlock, h, m)
  }

  // Section 5.3.3.
  const IV: Chain := [0x6a09_e667, 0xbb67_ae85, 0x3c6e_f372, 0xa54f_f53a,
                      0x510e_527f, 0x9b05_688c, 0x1f83_d9ab, 0x5be0_cd19]

  function Output(h: Chain): (d: seq<Byte>)
    ensures |d| == 32
  {
    StoreBE(h[0]) + StoreBE(h[1]) + StoreBE(h[2]) + StoreBE(h[3])
    + StoreBE(h[4]) + StoreBE(h[5]) + StoreBE(h[6]) + StoreBE(h[7])
  }

  // Padding as section 5.1.1 says, then section 6.2.2.
  function Digest(m: seq<Byte>): seq<Byte> {
    Output(FoldPadded<Chain>(OnBlock, IV, m, StoreBE64(BitLength(m))))
  }
}

module LibtomSha256 {
  import opened Words
  import opened Tomcrypt
  import opened Sha256Spec

  // The macros `Ch` and `Maj`, with fewer operations than the standard's.
  function ShortCh(x: Word, y: Word, z: Word): Word {
    z ^ (x & (y ^ z))
  }

  function ShortMaj(x: Word, y: Word, z: Word): Word {
    ((x | y) & z) | (x & y)
  }

  // The macros of lines 62-65, as they are defined there.
  function Sigma0(x: Word): Word {
    Ror(x, 2) ^ Ror(x, 13) ^ Ror(x, 22)
  }

  function Sigma1(x: Word): Word {
    Ror(x, 6) ^ Ror(x, 11) ^ Ror(x, 25)
  }

  function Gamma0(x: Word): Word {
    Ror(x, 7) ^ Ror(x, 18) ^ (x >> 3)
  }

  function Gamma1(x: Word): Word {
    Ror(x, 17) ^ Ror(x, 19) ^ (x >> 10)
  }

  lemma SigmasAgree(x: Word)
    ensures Sigma0(x) == BigSigma0(x) && Sigma1(x) == BigSigma1(x)
    ensures Gamma0(x) == SmallSigma0(x) && Gamma1(x) == SmallSigma1(x)
  {
    hide Ror;
  }

  lemma SameChoice(x: Word, y: Word, z: Word)
    ensures z ^ (x & (y ^ z)) == (x & y) ^ (!x & z)
  {
  }

  lemma SameMajority(x: Word, y: Word, z: Word)
    ensures ((x | y) & z) | (x & y) == (x & y) ^ (x & z) ^ (y & z)
  {
  }

  lemma ShortFormsAgree(x: Word, y: Word, z: Word)
    ensures ShortCh(x, y, z) == Ch(x, y, z)
    ensures ShortMaj(x, y, z) == Maj(x, y, z)
  {
    SameChoice(x, y, z);
    SameMajority(x, y, z);
  }

  // `RND`: only two registers change; which ones they are called is left to the caller.
  method Rnd(a: Word, b: Word, c: Word, d: Word, e: Word, f: Word, g: Word, h: Word, k: Word, w: Word)
    returns (d': Word, h': Word)
    ensures Vars(h', a, b, c, d', e, f, g) == Round(Vars(a, b, c, d, e, f, g, h), k, w)
  {
    hide Add, Ch, Maj, ShortCh, ShortMaj, BigSigma0, BigSigma1, Sigma0, Sigma1;
    SigmasAgree(e);
    SigmasAgree(a);
    ShortFormsAgree(e, f, g);
    ShortFormsAgree(a, b, c);
    var t0 := Add(Add(Add(Add(h, Sigma1(e)), ShortCh(e, f, g)), k), w);
    var t1 := Add(Sigma0(a), ShortMaj(a, b, c));
    d' := Add(d, t0);
    h' := Add(t0, t1);
  }

  // Lines 85-93: the 64 schedule words.
  method FillSchedule(W: array<Word>, buf: Block)
    requires W.Length == 64
    modifies W
    ensures W[..] == Schedule(buf)
  {
    hide LoadBE, Add, SmallSigma0, SmallSigma1, Gamma0, Gamma1;
    var i := 0;
    while i < 16
      invariant 0 <= i <= 16 && forall j: nat :: j < i ==> W[j] == Scheduled(buf, j)
    {
      W[i] := LoadBE(buf[4 * i], buf[4 * i + 1], buf[4 * i + 2], buf[4 * i + 3]);
      i := i + 1;
    }
    while i < 64
      invariant 16 <= i <= 64 && forall j: nat :: j < i ==> W[j] == Scheduled(buf, j)
    {
      SigmasAgree(W[i - 2]);
      SigmasAgree(W[i - 15]);
      W[i] := Add(Add(Add(Gamma1(W[i - 2]), W[i - 7]), Gamma0(W[i - 15])), W[i - 16]);
      i := i + 1;
    }
  }

  // Lines 96-107, the rolled form: every round shifts the eight registers.
  method RolledRounds(S: array<Word>, W: array<Word>)
    requires S.Length == 8 && W.Length == 64 && S != W
    modifies S
    ensures Start(S[..]) == Rounds(64, old(Start(S[..])), W[..])
  {
    hide Round, K;
    ghost var v := Start(S[..]);
    var i := 0;
    while i < 64
      invariant 0 <= i <= 64 && Start(S[..]) == Rounds(i, v, W[..])
    {
      S[3], S[7] := Rnd(S[0], S[1], S[2], S[3], S[4], S[5], S[6], S[7], K(i), W[i]);
      var t := S[7];
      S[7] := S[6];
      S[6] := S[5];
      S[5] := S[4];
      S[4] := S[3];
      S[3] := S[2];
      S[2] := S[1];
      S[1] := S[0];
      S[0] := t;
      i := i + 1;
    }
  }

  // Eight of the unrolled lines, from round `i`. The arguments come round again after eight.
  method EightRounds(S: array<Word>, W: array<Word>, ghost h: Vars, i: nat,
                     k0: Word, k1: Word, k2: Word, k3: Word, k4: Word, k5: Word, k6: Word, k7: Word)
    requires S.Length == 8 && W.Length == 64 && S != W && i <= 56 && i % 8 == 0
    requires [k0, k1, k2, k3, k4, k5, k6, k7] == KRow(i / 8)
    requires Start(S[..]) == Rounds(i, h, W[..])
    modifies S
    ensures Start(S[..]) == Rounds(i + 8, h, W[..])
  {
    hide Round, K, KRow, Rounds;
    RowOfK(i, [k0, k1, k2, k3, k4, k5, k6, k7]);
    EightMore(h, W[..], i);
    ghost var v := Start(S[..]);
    S[3], S[7] := Rnd(S[0], S[1], S[2], S[3], S[4], S[5], S[6], S[7], k0, W[i]);
    v := Round(v, k0, W[i]);
    S[2], S[6] := Rnd(S[7], S[0], S[1], S[2], S[3], S[4], S[5], S[6], k1, W[i + 1]);
    v := Round(v, k1, W[i + 1]);
    S[1], S[5] := Rnd(S[6], S[7], S[0], S[1], S[2], S[3], S[4], S[5], k2, W[i + 2]);
    v := Round(v, k2, W[i + 2]);
    S[0], S[4] := Rnd(S[5], S[6], S[7], S[0], S[1], S[2], S[3], S[4], k3, W[i + 3]);
    v := Round(v, k3, W[i + 3]);
    S[7], S[3] := Rnd(S[4], S[5], S[6], S[7], S[0], S[1], S[2], S[3], k4, W[i + 4]);
    v := Round(v, k4, W[i + 4]);
    S[6], S[2] := Rnd(S[3], S[4], S[5], S[6], S[7], S[0], S[1], S[2], k5, W[i + 5]);
    v := Round(v, k5, W[i + 5]);
    S[5], S[1] := Rnd(S[2], S[3], S[4], S[5], S[6], S[7], S[0], S[1], k6, W[i + 6]);
    v := Round(v, k6, W[i + 6]);
    S[4], S[0] := Rnd(S[1], S[2], S[3], S[4], S[5], S[6], S[7], S[0], k7, W[i + 7]);
    v := Round(v, k7, W[i + 7]);
  }

  lemma RowOfK(i: nat, row: seq<Word>)
    requires i % 8 == 0 && row == KRow(i / 8)
    ensures row[0] == K(i) && row[1] == K(i + 1) && row[2] == K(i + 2) && row[3] == K(i + 3)
    ensures row[4] == K(i + 4) && row[5] == K(i + 5) && row[6] == K(i + 6) && row[7] == K(i + 7)
  {
    hide KRow;
  }

  lemma EightMore(v: Vars, w: seq<Word>, i: nat)
    requires i + 8 <= |w|
    ensures Rounds(i + 8, v, w) == Four(Four(Rounds(i, v, w), w, i), w, i + 4)
  {
    hide Round, K;
    FourMore(v, w, i);
    FourMore(v, w, i + 4);
  }

  function Four(v: Vars, w: seq<Word>, i: nat): Vars
    requires i + 4 <= |w|
  {
    Round(Round(Round(Round(v, K(i), w[i]), K(i + 1), w[i + 1]), K(i + 2), w[i + 2]), K(i + 3), w[i + 3])
  }

  lemma FourMore(v: Vars, w: seq<Word>, i: nat)
    requires i + 4 <= |w|
    ensures Rounds(i + 4, v, w) == Four(Rounds(i, v, w), w, i)
  {
    hide Round, K;
    assert Rounds(i + 1, v, w) == Round(Rounds(i, v, w), K(i), w[i]);
    assert Rounds(i + 2, v, w) == Round(Rounds(i + 1, v, w), K(i + 1), w[i + 1]);
    assert Rounds(i + 3, v, w) == Round(Rounds(i + 2, v, w), K(i + 2), w[i + 2]);
  }

  // Lines 108-178, the unrolled form.
  method UnrolledRounds(S: array<Word>, W: array<Word>)
    requires S.Length == 8 && W.Length == 64 && S != W
    modifies S
    ensures Start(S[..]) == Rounds(64, old(Start(S[..])), W[..])
  {
    hide Rounds, Start, K;
    ghost var v := Start(S[..]);
    StartOfRounds(v, W[..]);
    EightRounds(S, W, v, 0, 0x428a_2f98, 0x7137_4491, 0xb5c0_fbcf, 0xe9b5_dba5,
      0x3956_c25b, 0x59f1_11f1, 0x923f_82a4, 0xab1c_5ed5);
    EightRounds(S, W, v, 8, 0xd807_aa98, 0x1283_5b01, 0x2431_85be, 0x550c_7dc3,
      0x72be_5d74, 0x80de_b1fe, 0x9bdc_06a7, 0xc19b_f174);
    EightRounds(S, W, v, 16, 0xe49b_69c1, 0xefbe_4786, 0x0fc1_9dc6, 0x240c_a1cc,
      0x2de9_2c6f, 0x4a74_84aa, 0x5cb0_a9dc, 0x76f9_88da);
    EightRounds(S, W, v, 24, 0x983e_5152, 0xa831_c66d, 0xb003_27c8, 0xbf59_7fc7,
      0xc6e0_0bf3, 0xd5a7_9147, 0x06ca_6351, 0x1429_2967);
    EightRounds(S, W, v, 32, 0x27b7_0a85, 0x2e1b_2138, 0x4d2c_6dfc, 0x5338_0d13,
      0x650a_7354, 0x766a_0abb, 0x81c2_c92e, 0x9272_2c85);
    EightRounds(S, W, v, 40, 0xa2bf_e8a1, 0xa81a_664b, 0xc24b_8b70, 0xc76c_51a3,
      0xd192_e819, 0xd699_0624, 0xf40e_3585, 0x106a_a070);
    EightRounds(S, W, v, 48, 0x19a4_c116, 0x1e37_6c08, 0x2748_774c, 0x34b0_bcb5,
      0x391c_0cb3, 0x4ed8_aa4a, 0x5b9c_ca4f, 0x682e_6ff3);
    EightRounds(S, W, v, 56, 0x748f_82ee, 0x78a5_636f, 0x84c8_7814, 0x8cc7_0208,
      0x90be_fffa, 0xa450_6ceb, 0xbef9_a3f7, 0xc671_78f2);
  }

  lemma StartOfRounds(v: Vars, w: seq<Word>)
    ensures Rounds(0, v, w) == v
  {
  }

  lemma AddCommutes(x: Word, y: Word)
    ensures Add(x, y) == Add(y, x)
  {
  }

  datatype Form = Rolled | Unrolled    // with and without LTC_SMALL_CODE

  // `sha256_compress`
  method Compress(form: Form, state: array<Word>, buf: seq<Byte>)
    requires state.Length == 8 && |buf| == 64
    modifies state
    ensures state[..] == OnBlock(old(state[..]), buf)
  {
    hide Add, Rounds, Schedule, Start, OnBlock;
    ghost var h: Chain := state[..];
    var S, W := new Word[8], new Word[64];
    Copy(S, state);
    FillSchedule(W, buf);
    match form {
      case Rolled => RolledRounds(S, W);
      case Unrolled => UnrolledRounds(S, W);
    }
    ghost var v: Chain := S[..];
    Feedback(state, S);
    FedBack(h, buf, v, state[..]);
  }

  // The chaining value with the registers added to it.
  lemma FedBack(h: Chain, buf: Block, v: Chain, after: Chain)
    requires Start(v) == Rounds(64, Start(h), Schedule(buf))
    requires forall j :: 0 <= j < 8 ==> after[j] == Add(v[j], h[j])
    ensures after == OnBlock(h, buf)
  {
    hide Add, Rounds, Schedule;
  }

  // Lines 80-83.
  method Copy(S: array<Word>, state: array<Word>)
    requires state.Length == 8 && S.Length == 8 && S != state
    modifies S
    ensures S[..] == state[..]
  {
    var i := 0;
    while i < 8
      invariant 0 <= i <= 8 && S[..i] == state[..i]
    {
      S[i] := state[i];
      i := i + 1;
    }
  }

  // Lines 184-187.
  method Feedback(state: array<Word>, S: array<Word>)
    requires state.Length == 8 && S.Length == 8 && state != S
    modifies state
    ensures forall j :: 0 <= j < 8 ==> state[j] == Add(S[j], old(state[j]))
  {
    hide Add;
    var i := 0;
    while i < 8
      invariant 0 <= i <= 8
      invariant forall j :: 0 <= j < i ==> state[j] == Add(S[j], old(state[j]))
      invariant forall j :: i <= j < 8 ==> state[j] == old(state[j])
    {
      AddCommutes(state[i], S[i]);
      state[i] := Add(state[i], S[i]);
      i := i + 1;
    }
  }

  // Padding what was absorbed gives the digest.
  lemma ContextToDigest(h: Chain, rest: seq<Byte>, length: U64, m: seq<Byte>)
    requires Context<Chain>(OnBlock, IV, h, rest, length, m) && |rest| < 64
    ensures Output(Absorb(h, rest + Padding(|rest|, StoreBE64((length + |rest| * 8) % TWO_64)))) == Digest(m)
  {
    hide Fold, OnBlock, Padding, StoreBE64, Output;
    AddsModulo(|Full(m)| * 8, |rest| * 8);
    assert |Full(m)| + |rest| == |m|;
    FoldPaddedFromTail<Chain>(OnBlock, IV, m, StoreBE64(BitLength(m)));
  }

  class HashState {
    const form: Form
    const state: array<Word>
    const buf: array<Byte>
    var curlen: nat
    var length: U64

    ghost predicate Valid()
    {
      state.Length == 8 && buf.Length == 64
    }

    ghost predicate Absorbed(m: seq<Byte>)
      reads this, state, buf
    {
      Valid() && curlen <= 64 && Context<Chain>(OnBlock, IV, state[..], buf[..curlen], length, m)
    }

    // `sha256_init`, on storage of its own.
    constructor (form: Form)
      ensures Absorbed([]) && fresh(state) && fresh(buf)
    {
      this.form := form;
      state := new Word[8];
      buf := new Byte[64];
      curlen, length := 0, 0;
      new;
      hide Context, IV;
      InitState(state);
      assert buf[..curlen] == [];
      NothingAbsorbed<Chain>(OnBlock, IV);
    }

    static method InitState(state: array<Word>)
      requires state.Length == 8
      modifies state
      ensures state[..] == IV
    {
      state[0] := 0x6a09_e667;
      state[1] := 0xbb67_ae85;
      state[2] := 0x3c6e_f372;
      state[3] := 0xa54f_f53a;
      state[4] := 0x510e_527f;
      state[5] := 0x9b05_688c;
      state[6] := 0x1f83_d9ab;
      state[7] := 0x5be0_cd19;
    }

    // Lines 238-285.
    method Done() returns (err: Status, out: seq<Byte>)
      requires Valid()
      modifies state, buf, this
      ensures err == CRYPT_INVALID_ARG <==> old(curlen) >= 64
      ensures forall m: seq<Byte> :: old(Absorbed(m)) ==> err == CRYPT_OK && out == Digest(m)
    {
      hide Context, Absorb, Padding, StoreBE64, OnBlock, Output;
      forall m: seq<Byte> | Absorbed(m) ensures curlen < 64 { TailIsShort<Chain>(OnBlock, IV, state[..], buf[..curlen], length, m); }
      if curlen >= 64 {
        return CRYPT_INVALID_ARG, [];
      }
      PadAndCompress();
      out := StoreState();
      err := CRYPT_OK;
      forall m: seq<Byte> | old(Absorbed(m)) ensures out == Digest(m) {
        ContextToDigest(old(state[..]), old(buf[..curlen]), old(length), m);
      }
    }

    // Lines 250-275.
    method PadAndCompress()
      requires Valid() && curlen < 64
      modifies state, buf, this
      ensures var n, bits := old(curlen), (old(length) + old(curlen) * 8) % TWO_64;
              state[..] == Absorb(old(state[..]), old(buf[..curlen]) + Padding(n, StoreBE64(bits)))
    {
      hide Fold, Padding, StoreBE64, OnBlock;
      ghost var h: Chain, tail := state[..], buf[..curlen];
      ghost var n := curlen;
      length := (length + curlen * 8) % TWO_64;
      buf[curlen] := 0x80;
      curlen := curlen + 1;
      assert buf[..curlen] == tail + [0x80];
      ghost var first: seq<Byte> := [];
      if curlen > 56 {
        curlen := ZeroFill(buf, curlen, 64);
        first := buf[..];
        assert first == buf[..64] == tail + [0x80] + Zeros(63 - n);
        Compress(form, state, buf[..]);
        curlen := 0;
      }
      curlen := ZeroFill(buf, curlen, 56);
      StoreLength(length);
      assert buf[..] == buf[..56] + StoreBE64(length);
      Compress(form, state, buf[..]);
      PaddedBlocks<Chain>(OnBlock, h, tail, StoreBE64(length), first, buf[..]);
    }

    // Line 274.
    method StoreLength(n: U64)
      requires Valid()
      modifies buf
      ensures buf[..56] == old(buf[..56]) && buf[56..] == StoreBE64(n)
    {
      hide ByteOf;
      var i := 0;
      while i < 8
        invariant 0 <= i <= 8 && buf[..56] == old(buf[..56])
        invariant forall j: nat :: j < i ==> buf[56 + j] == StoreBE64(n)[j]
      {
        buf[56 + i] := ByteOf(n, 7 - i);
        i := i + 1;
      }
    }

    // Lines 277-280.
    method StoreState() returns (out: seq<Byte>)
      requires Valid()
      ensures out == Output(state[..])
    {
      hide StoreBE;
      out := [];
      var i := 0;
      while i < 8
        invariant 0 <= i <= 8 && out == Prefix(state[..], i)
      {
        out := out + StoreBE(state[i]);
        i := i + 1;
      }
      AllEight(state[..]);
    }
  }

  function Prefix(h: seq<Word>, n: nat): seq<Byte>
    requires n <= |h|
  {
    if n == 0 then [] else Prefix(h, n - 1) + StoreBE(h[n - 1])
  }

  lemma AllEight(h: Chain)
    ensures Prefix(h, 8) == Output(h)
  {
    hide StoreBE;
    assert Prefix(h, 1) == StoreBE(h[0]);
    assert Prefix(h, 2) == StoreBE(h[0]) + StoreBE(h[1]);
    assert Prefix(h, 4) == Prefix(h, 2) + StoreBE(h[2]) + StoreBE(h[3]);
    assert Prefix(h, 6) == Prefix(h, 4) + StoreBE(h[4]) + StoreBE(h[5]);
  }
}
