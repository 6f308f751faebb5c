// `_crc32` of utils/jl777str.h:477-534: eight shifts at a time, by table.

module Crc32 {

  import opened Words

  // The polynomial of section 8 of RFC 1952, with the highest-order term in the lowest bit.
  const POLYNOMIAL: Word := 0xedb88320

  function Feedback(c: Word): Word {
    if c & 1 == 1 then POLYNOMIAL else 0
  }

  // One step of the shift register.
  function Shift(c: Word): Word {
    (c >> 1) ^ Feedback(c)
  }

  function EightShifts(c: Word): Word {
    Shift(Shift(Shift(Shift(Shift(Shift(Shift(Shift(c))))))))
  }

  // The register after feeding in a byte string bit by bit, low bit first.
  function Register(c: Word, s: seq<Byte>): Word {
    if s == [] then c
    else EightShifts(Xor(Register(c, s[..|s| - 1]), s[|s| - 1] as Word))
  }

  function Crc(crc: Word, s: seq<Byte>): Word {
    Xor(Register(Xor(crc, 0xffff_ffff), s), 0xffff_ffff)
  }

  // ------------------------------------------------------------------- linearity

  lemma ShiftOfXor(a: Word, b: Word)
    ensures (a ^ b) & 1 == 1 <==> (a & 1 == 1) != (b & 1 == 1)
    ensures (a ^ b) >> 1 == (a >> 1) ^ (b >> 1)
  {
  }

  lemma FeedbackIsLinear(a: Word, b: Word)
    ensures Feedback(a ^ b) == Feedback(a) ^ Feedback(b)
  {
    ShiftOfXor(a, b);
    if a & 1 == 1 && b & 1 == 1 { assert POLYNOMIAL ^ POLYNOMIAL == 0; }
  }

  lemma Swap(x: Word, y: Word, u: Word, v: Word)
    ensures (x ^ y) ^ (u ^ v) == (x ^ u) ^ (y ^ v)
  {
  }

  lemma ShiftIsLinear(a: Word, b: Word)
    ensures Shift(Xor(a, b)) == Xor(Shift(a), Shift(b))
  {
    FeedbackIsLinear(a, b);
    ShiftOfXor(a, b);
    hide Feedback;
    Swap(a >> 1, b >> 1, Feedback(a), Feedback(b));
  }

  lemma EightShiftsIsLinear(a: Word, b: Word)
    ensures EightShifts(Xor(a, b)) == Xor(EightShifts(a), EightShifts(b))
  {
    hide Shift, Xor;
    var a1, b1 := Shift(a), Shift(b);
    ShiftIsLinear(a, b);
    var a2, b2 := Shift(a1), Shift(b1);
    ShiftIsLinear(a1, b1);
    var a3, b3 := Shift(a2), Shift(b2);
    ShiftIsLinear(a2, b2);
    var a4, b4 := Shift(a3), Shift(b3);
    ShiftIsLinear(a3, b3);
    var a5, b5 := Shift(a4), Shift(b4);
    ShiftIsLinear(a4, b4);
    var a6, b6 := Shift(a5), Shift(b5);
    ShiftIsLinear(a5, b5);
    var a7, b7 := Shift(a6), Shift(b6);
    ShiftIsLinear(a6, b6);
    ShiftIsLinear(a7, b7);
  }

  // With no low byte the eight shifts meet no feedback.
  lemma HighBytesOnlyMove(c: Word)
    ensures EightShifts(c & 0xffff_ff00) == c >> 8
  {
  }

  lemma SplitLowByte(x: Word)
    ensures Xor(x & 0xff, x & 0xffff_ff00) == x && x & 0xff < 256
  {
  }

  lemma ByteLeavesHighBytes(c: Word, b: Byte)
    ensures Xor(c, b as Word) & 0xffff_ff00 == c & 0xffff_ff00
  {
  }

  function Row0(i: Word): (r: Word)
    requires 0 <= i < 16
    ensures r == EightShifts(i)
  {
    match i
    case 0 => 0x00000000 case 1 => 0x77073096 case 2 => 0xee0e612c case 3 => 0x990951ba
    case 4 => 0x076dc419 case 5 => 0x706af48f case 6 => 0xe963a535 case 7 => 0x9e6495a3
    case 8 => 0x0edb8832 case 9 => 0x79dcb8a4 case 10 => 0xe0d5e91e case 11 => 0x97d2d988
    case 12 => 0x09b64c2b case 13 => 0x7eb17cbd case 14 => 0xe7b82d07 case _ => 0x90bf1d91
  }

  function Row1(i: Word): (r: Word)
    requires 16 <= i < 32
    ensures r == EightShifts(i)
  {
    match i
    case 16 => 0x1db71064 case 17 => 0x6ab020f2 case 18 => 0xf3b97148 case 19 => 0x84be41de
    case 20 => 0x1adad47d case 21 => 0x6ddde4eb case 22 => 0xf4d4b551 case 23 => 0x83d385c7
    case 24 => 0x136c9856 case 25 => 0x646ba8c0 case 26 => 0xfd62f97a case 27 => 0x8a65c9ec
    case 28 => 0x14015c4f case 29 => 0x63066cd9 case 30 => 0xfa0f3d63 case _ => 0x8d080df5
  }

  function Row2(i: Word): (r: Word)
    requires 32 <= i < 48
    ensures r == EightShifts(i)
  {
    match i
    case 32 => 0x3b6e20c8 case 33 => 0x4c69105e case 34 => 0xd56041e4 case 35 => 0xa2677172
    case 36 => 0x3c03e4d1 case 37 => 0x4b04d447 case 38 => 0xd20d85fd case 39 => 0xa50ab56b
    case 40 => 0x35b5a8fa case 41 => 0x42b2986c case 42 => 0xdbbbc9d6 case 43 => 0xacbcf940
    case 44 => 0x32d86ce3 case 45 => 0x45df5c75 case 46 => 0xdcd60dcf case _ => 0xabd13d59
  }

  function Row3(i: Word): (r: Word)
    requires 48 <= i < 64
    ensures r == EightShifts(i)
  {
    match i
    case 48 => 0x26d930ac case 49 => 0x51de003a case 50 => 0xc8d75180 case 51 => 0xbfd06116
    case 52 => 0x21b4f4b5 case 53 => 0x56b3c423 case 54 => 0xcfba9599 case 55 => 0xb8bda50f
    case 56 => 0x2802b89e case 57 => 0x5f058808 case 58 => 0xc60cd9b2 case 59 => 0xb10be924
    case 60 => 0x2f6f7c87 case 61 => 0x58684c11 case 62 => 0xc1611dab case _ => 0xb6662d3d
  }

  function Row4(i: Word): (r: Word)
    requires 64 <= i < 80
    ensures r == EightShifts(i)
  {
    match i
    case 64 => 0x76dc4190 case 65 => 0x01db7106 case 66 => 0x98d220bc case 67 => 0xefd5102a
    case 68 => 0x71b18589 case 69 => 0x06b6b51f case 70 => 0x9fbfe4a5 case 71 => 0xe8b8d433
    case 72 => 0x7807c9a2 case 73 => 0x0f00f934 case 74 => 0x9609a88e case 75 => 0xe10e9818
    case 76 => 0x7f6a0dbb case 77 => 0x086d3d2d case 78 => 0x91646c97 case _ => 0xe6635c01
  }

  function Row5(i: Word): (r: Word)
    requires 80 <= i < 96
    ensures r == EightShifts(i)
  {
    match i
    case 80 => 0x6b6b51f4 case 81 => 0x1c6c6162 case 82 => 0x856530d8 case 83 => 0xf262004e
    case 84 => 0x6c0695ed case 85 => 0x1b01a57b case 86 => 0x8208f4c1 case 87 => 0xf50fc457
    case 88 => 0x65b0d9c6 case 89 => 0x12b7e950 case 90 => 0x8bbeb8ea case 91 => 0xfcb9887c
    case 92 => 0x62dd1ddf case 93 => 0x15da2d49 case 94 => 0x8cd37cf3 case _ => 0xfbd44c65
  }

  function Row6(i: Word): (r: Word)
    requires 96 <= i < 112
    ensures r == EightShifts(i)
  {
    match i
    case 96 => 0x4db26158 case 97 => 0x3ab551ce case 98 => 0xa3bc0074 case 99 => 0xd4bb30e2
    case 100 => 0x4adfa541 case 101 => 0x3dd895d7 case 102 => 0xa4d1c46d case 103 => 0xd3d6f4fb
    case 104 => 0x4369e96a case 105 => 0x346ed9fc case 106 => 0xad678846 case 107 => 0xda60b8d0
    case 108 => 0x44042d73 case 109 => 0x33031de5 case 110 => 0xaa0a4c5f case _ => 0xdd0d7cc9
  }

  function Row7(i: Word): (r: Word)
    requires 112 <= i < 128
    ensures r == EightShifts(i)
  {
    match i
    case 112 => 0x5005713c case 113 => 0x270241aa case 114 => 0xbe0b1010 case 115 => 0xc90c2086
    case 116 => 0x5768b525 case 117 => 0x206f85b3 case 118 => 0xb966d409 case 119 => 0xce61e49f
    case 120 => 0x5edef90e case 121 => 0x29d9c998 case 122 => 0xb0d09822 case 123 => 0xc7d7a8b4
    case 124 => 0x59b33d17 case 125 => 0x2eb40d81 case 126 => 0xb7bd5c3b case _ => 0xc0ba6cad
  }

  function Row8(i: Word): (r: Word)
    requires 128 <= i < 144
    ensures r == EightShifts(i)
  {
    match i
    case 128 => 0xedb88320 case 129 => 0x9abfb3b6 case 130 => 0x03b6e20c case 131 => 0x74b1d29a
    case 132 => 0xead54739 case 133 => 0x9dd277af case 134 => 0x04db2615 case 135 => 0x73dc1683
    case 136 => 0xe3630b12 case 137 => 0x94643b84 case 138 => 0x0d6d6a3e case 139 => 0x7a6a5aa8
    case 140 => 0xe40ecf0b case 141 => 0x9309ff9d case 142 => 0x0a00ae27 case _ => 0x7d079eb1
  }

  function Row9(i: Word): (r: Word)
    requires 144 <= i < 160
    ensures r == EightShifts(i)
  {
    match i
    case 144 => 0xf00f9344 case 145 => 0x8708a3d2 case 146 => 0x1e01f268 case 147 => 0x6906c2fe
    case 148 => 0xf762575d case 149 => 0x806567cb case 150 => 0x196c3671 case 151 => 0x6e6b06e7
    case 152 => 0xfed41b76 case 153 => 0x89d32be0 case 154 => 0x10da7a5a case 155 => 0x67dd4acc
    case 156 => 0xf9b9df6f case 157 => 0x8ebeeff9 case 158 => 0x17b7be43 case _ => 0x60b08ed5
  }

  function Row10(i: Word): (r: Word)
    requires 160 <= i < 176
    ensures r == EightShifts(i)
  {
    match i
    case 160 => 0xd6d6a3e8 case 161 => 0xa1d1937e case 162 => 0x38d8c2c4 case 163 => 0x4fdff252
    case 164 => 0xd1bb67f1 case 165 => 0xa6bc5767 case 166 => 0x3fb506dd case 167 => 0x48b2364b
    case 168 => 0xd80d2bda case 169 => 0xaf0a1b4c case 170 => 0x36034af6 case 171 => 0x41047a60
    case 172 => 0xdf60efc3 case 173 => 0xa867df55 case 174 => 0x316e8eef case _ => 0x4669be79
  }

  function Row11(i: Word): (r: Word)
    requires 176 <= i < 192
    ensures r == EightShifts(i)
  {
    match i
    case 176 => 0xcb61b38c case 177 => 0xbc66831a case 178 => 0x256fd2a0 case 179 => 0x5268e236
    case 180 => 0xcc0c7795 case 181 => 0xbb0b4703 case 182 => 0x220216b9 case 183 => 0x5505262f
    case 184 => 0xc5ba3bbe case 185 => 0xb2bd0b28 case 186 => 0x2bb45a92 case 187 => 0x5cb36a04
    case 188 => 0xc2d7ffa7 case 189 => 0xb5d0cf31 case 190 => 0x2cd99e8b case _ => 0x5bdeae1d
  }

  function Row12(i: Word): (r: Word)
    requires 192 <= i < 208
    ensures r == EightShifts(i)
  {
    match i
    case 192 => 0x9b64c2b0 case 193 => 0xec63f226 case 194 => 0x756aa39c case 195 => 0x026d930a
    case 196 => 0x9c0906a9 case 197 => 0xeb0e363f case 198 => 0x72076785 case 199 => 0x05005713
    case 200 => 0x95bf4a82 case 201 => 0xe2b87a14 case 202 => 0x7bb12bae case 203 => 0x0cb61b38
    case 204 => 0x92d28e9b case 205 => 0xe5d5be0d case 206 => 0x7cdcefb7 case _ => 0x0bdbdf21
  }

  function Row13(i: Word): (r: Word)
    requires 208 <= i < 224
    ensures r == EightShifts(i)
  {
    match i
    case 208 => 0x86d3d2d4 case 209 => 0xf1d4e242 case 210 => 0x68ddb3f8 case 211 => 0x1fda836e
    case 212 => 0x81be16cd case 213 => 0xf6b9265b case 214 => 0x6fb077e1 case 215 => 0x18b74777
    case 216 => 0x88085ae6 case 217 => 0xff0f6a70 case 218 => 0x66063bca case 219 => 0x11010b5c
    case 220 => 0x8f659eff case 221 => 0xf862ae69 case 222 => 0x616bffd3 case _ => 0x166ccf45
  }

  function Row14(i: Word): (r: Word)
    requires 224 <= i < 240
    ensures r == EightShifts(i)
  {
    match i
    case 224 => 0xa00ae278 case 225 => 0xd70dd2ee case 226 => 0x4e048354 case 227 => 0x3903b3c2
    case 228 => 0xa7672661 case 229 => 0xd06016f7 case 230 => 0x4969474d case 231 => 0x3e6e77db
    case 232 => 0xaed16a4a case 233 => 0xd9d65adc case 234 => 0x40df0b66 case 235 => 0x37d83bf0
    case 236 => 0xa9bcae53 case 237 => 0xdebb9ec5 case 238 => 0x47b2cf7f case _ => 0x30b5ffe9
  }

  function Row15(i: Word): (r: Word)
    requires 240 <= i < 256
    ensures r == EightShifts(i)
  {
    match i
    case 240 => 0xbdbdf21c case 241 => 0xcabac28a case 242 => 0x53b39330 case 243 => 0x24b4a3a6
    case 244 => 0xbad03605 case 245 => 0xcdd70693 case 246 => 0x54de5729 case 247 => 0x23d967bf
    case 248 => 0xb3667a2e case 249 => 0xc4614ab8 case 250 => 0x5d681b02 case 251 => 0x2a6f2b94
    case 252 => 0xb40bbe37 case 253 => 0xc30c8ea1 case 254 => 0x5a05df1b case _ => 0x2d02ef8d
  }

  // `crc32_tab[i]`
  function Table(i: Word): (r: Word)
    requires i < 256
    ensures r == EightShifts(i)
  {
    if i < 16 then Row0(i)
    else if i < 32 then Row1(i)
    else if i < 48 then Row2(i)
    else if i < 64 then Row3(i)
    else if i < 80 then Row4(i)
    else if i < 96 then Row5(i)
    else if i < 112 then Row6(i)
    else if i < 128 then Row7(i)
    else if i < 144 then Row8(i)
    else if i < 160 then Row9(i)
    else if i < 176 then Row10(i)
    else if i < 192 then Row11(i)
    else if i < 208 then Row12(i)
    else if i < 224 then Row13(i)
    else if i < 240 then Row14(i)
    else Row15(i)
  }

  // The table index and the rest of the register (line 531).
  function Low(c: Word): (r: Word)
    ensures r < 256
  {
    c & 0xff
  }

  function High(c: Word): Word {
    c >> 8
  }

  // One lookup does the work of eight shifts.
  lemma LookupIsEightShifts(c: Word, b: Byte)
    ensures Xor(Table(Low(Xor(c, b as Word))), High(c)) == EightShifts(Xor(c, b as Word))
  {
    var x := Xor(c, b as Word);
    SplitLowByte(x);
    ByteLeavesHighBytes(c, b);
    HighBytesOnlyMove(c);
    EightShiftsIsLinear(x & 0xff, x & 0xffff_ff00);
    hide EightShifts, Table, Xor;
  }

  method Crc32(crc0: Word, buf: seq<Byte>) returns (crc: Word)
    ensures crc == Crc(crc0, buf)
  {
    hide EightShifts, Table, Xor, High, Low;
    crc := Xor(crc0, 0xffff_ffff);
    var i := 0;
    while i < |buf|
      invariant 0 <= i <= |buf| && crc == Register(Xor(crc0, 0xffff_ffff), buf[..i])
    {
      assert buf[..i + 1][..i] == buf[..i];
      LookupIsEightShifts(crc, buf[i]);
      crc := Xor(Table(Low(Xor(crc, buf[i] as Word))), High(crc));
      i := i + 1;
    }
    assert buf[..i] == buf;
    crc := Xor(crc, 0xffff_ffff);
  }

  // The CRC of a concatenation is the CRC of the parts chained through the first argument,
  // which is how NXTorrent.h:667-671 hashes a listing.
  lemma CrcChains(crc: Word, s: seq<Byte>, t: seq<Byte>)
    ensures Crc(Crc(crc, s), t) == Crc(crc, s + t)
  {
    hide EightShifts, Xor, Register;
    RegisterChains(Xor(crc, 0xffff_ffff), s, t);
    TwiceInverted(Register(Xor(crc, 0xffff_ffff), s));
  }

  lemma TwiceInverted(x: Word)
    ensures Xor(Xor(x, 0xffff_ffff), 0xffff_ffff) == x
  {
  }

  lemma {:induction false} RegisterChains(c: Word, s: seq<Byte>, t: seq<Byte>)
    ensures Register(Register(c, s), t) == Register(c, s + t)
  {
    hide EightShifts, Xor;
    if t == [] {
      assert s + t == s;
    } else {
      assert (s + t)[..|s + t| - 1] == s + t[..|t| - 1];
      RegisterChains(c, s, t[..|t| - 1]);
    }
  }

  // A listing's hash: three parts, the last two skipped when empty.
  method ListingCrc(seed: Word, fixed: seq<Byte>, uri: seq<Byte>, descr: seq<Byte>) returns (crc: Word)
    ensures crc == Crc(seed, fixed + uri + descr)
  {
    hide Crc;
    crc := Crc32(seed, fixed);
    CrcChains(seed, fixed, uri);
    CrcChains(seed, fixed + uri, descr);
    assert fixed + [] == fixed && fixed + uri + [] == fixed + uri;
    if uri != [] {
      crc := Crc32(crc, uri);
    }
    if descr != [] {
      crc := Crc32(crc, descr);
    }
  }
}
