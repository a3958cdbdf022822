/** The example of appendix C.3 of FIPS 197: the cipher under a key of 256 bits, round by round. */
module AesVectors {
  import opened AesTables
  import opened AesField
  import opened AesBlocks
  import opened AesKeys

  const KEY: seq<bv8> := [
    0x00, 0x01, 0x02, 0x03, 0x04, 0x05, 0x06, 0x07, 0x08, 0x09, 0x0a, 0x0b, 0x0c, 0x0d, 0x0e, 0x0f,
    0x10, 0x11, 0x12, 0x13, 0x14, 0x15, 0x16, 0x17, 0x18, 0x19, 0x1a, 0x1b, 0x1c, 0x1d, 0x1e, 0x1f]

  const PLAINTEXT: seq<bv8> := [
    0x00, 0x11, 0x22, 0x33, 0x44, 0x55, 0x66, 0x77, 0x88, 0x99, 0xaa, 0xbb, 0xcc, 0xdd, 0xee, 0xff]

  const CIPHERTEXT: seq<bv8> := [
    0x8e, 0xa2, 0xb7, 0xca, 0x51, 0x67, 0x45, 0xbf, 0xea, 0xfc, 0x49, 0x90, 0x4b, 0x49, 0x60, 0x89]

  // ---------------------------------------------------------------- the key schedule

  /** A word from the ones one and eight places back; `t` is what is added to the latter. */
  lemma WordIs(i: nat, p: seq<bv8>, q: seq<bv8>, t: seq<bv8>)
    requires NK <= i < WORDS && |p| == |q| == |t| == 4
    requires Word(KEY, i - NK) == p && Word(KEY, i - 1) == q
    requires t == if i % 8 == 0 then [Sbox(q[1]) ^ Rcon(i / 8), Sbox(q[2]), Sbox(q[3]), Sbox(q[0])]
                  else if i % 8 == 4 then [Sbox(q[0]), Sbox(q[1]), Sbox(q[2]), Sbox(q[3])]
                  else q
    ensures Word(KEY, i) == [p[0] ^ t[0], p[1] ^ t[1], p[2] ^ t[2], p[3] ^ t[3]]
  {
    hide Word, Sbox, Rcon, Xor;
    WordRecurrence(KEY, i);
    XorWord(p, t);
  }

  lemma KeyWord0()
    ensures Word(KEY, 0) == [0x00, 0x01, 0x02, 0x03]
  {
    hide Word;
    WordStarts(KEY, 0);
    assert KEY[0..4] == [KEY[0], KEY[1], KEY[2], KEY[3]];
  }

  lemma KeyWord1()
    ensures Word(KEY, 1) == [0x04, 0x05, 0x06, 0x07]
  {
    hide Word;
    WordStarts(KEY, 1);
    assert KEY[4..8] == [KEY[4], KEY[5], KEY[6], KEY[7]];
  }

  lemma KeyWord2()
    ensures Word(KEY, 2) == [0x08, 0x09, 0x0a, 0x0b]
  {
    hide Word;
    WordStarts(KEY, 2);
    assert KEY[8..12] == [KEY[8], KEY[9], KEY[10], KEY[11]];
  }

  lemma KeyWord3()
    ensures Word(KEY, 3) == [0x0c, 0x0d, 0x0e, 0x0f]
  {
    hide Word;
    WordStarts(KEY, 3);
    assert KEY[12..16] == [KEY[12], KEY[13], KEY[14], KEY[15]];
  }

  lemma KeyWord4()
    ensures Word(KEY, 4) == [0x10, 0x11, 0x12, 0x13]
  {
    hide Word;
    WordStarts(KEY, 4);
    assert KEY[16..20] == [KEY[16], KEY[17], KEY[18], KEY[19]];
  }

  lemma KeyWord5()
    ensures Word(KEY, 5) == [0x14, 0x15, 0x16, 0x17]
  {
    hide Word;
    WordStarts(KEY, 5);
    assert KEY[20..24] == [KEY[20], KEY[21], KEY[22], KEY[23]];
  }

  lemma KeyWord6()
    ensures Word(KEY, 6) == [0x18, 0x19, 0x1a, 0x1b]
  {
    hide Word;
    WordStarts(KEY, 6);
    assert KEY[24..28] == [KEY[24], KEY[25], KEY[26], KEY[27]];
  }

  lemma KeyWord7()
    ensures Word(KEY, 7) == [0x1c, 0x1d, 0x1e, 0x1f]
  {
    hide Word;
    WordStarts(KEY, 7);
    assert KEY[28..32] == [KEY[28], KEY[29], KEY[30], KEY[31]];
  }

  lemma Words0()
    ensures Word(KEY, 0) == [0x00, 0x01, 0x02, 0x03] && Word(KEY, 1) == [0x04, 0x05, 0x06, 0x07]
    ensures Word(KEY, 2) == [0x08, 0x09, 0x0a, 0x0b] && Word(KEY, 3) == [0x0c, 0x0d, 0x0e, 0x0f]
    ensures Word(KEY, 4) == [0x10, 0x11, 0x12, 0x13] && Word(KEY, 5) == [0x14, 0x15, 0x16, 0x17]
    ensures Word(KEY, 6) == [0x18, 0x19, 0x1a, 0x1b] && Word(KEY, 7) == [0x1c, 0x1d, 0x1e, 0x1f]
  {
    hide Word;
    KeyWord0();
    KeyWord1();
    KeyWord2();
    KeyWord3();
    KeyWord4();
    KeyWord5();
    KeyWord6();
    KeyWord7();
  }

  lemma Constants()
    ensures Rcon(1) == 0x01 && Rcon(2) == 0x02 && Rcon(3) == 0x04 && Rcon(4) == 0x08
    ensures Rcon(5) == 0x10 && Rcon(6) == 0x20 && Rcon(7) == 0x40
  {
  }

  lemma Subs8()
    ensures Sbox(0x1c) == 0x9c && Sbox(0x1d) == 0xa4 && Sbox(0x1e) == 0x72 && Sbox(0x1f) == 0xc0
  {
  }

  lemma Subs12()
    ensures Sbox(0xa5) == 0x06 && Sbox(0x72) == 0x40 && Sbox(0xc0) == 0xba && Sbox(0x9c) == 0xde
  {
  }

  lemma Words1()
    ensures Word(KEY, 8) == [0xa5, 0x73, 0xc2, 0x9f] && Word(KEY, 9) == [0xa1, 0x76, 0xc4, 0x98]
    ensures Word(KEY, 10) == [0xa9, 0x7f, 0xce, 0x93] && Word(KEY, 11) == [0xa5, 0x72, 0xc0, 0x9c]
    ensures Word(KEY, 12) == [0x16, 0x51, 0xa8, 0xcd] && Word(KEY, 13) == [0x02, 0x44, 0xbe, 0xda]
    ensures Word(KEY, 14) == [0x1a, 0x5d, 0xa4, 0xc1] && Word(KEY, 15) == [0x06, 0x40, 0xba, 0xde]
  {
    hide Word, Sbox, Rcon;
    Words0();
    Subs8();
    Subs12();
    Constants();
    WordIs(8, [0x00, 0x01, 0x02, 0x03], [0x1c, 0x1d, 0x1e, 0x1f], [0xa5, 0x72, 0xc0, 0x9c]);
    WordIs(9, [0x04, 0x05, 0x06, 0x07], [0xa5, 0x73, 0xc2, 0x9f], [0xa5, 0x73, 0xc2, 0x9f]);
    WordIs(10, [0x08, 0x09, 0x0a, 0x0b], [0xa1, 0x76, 0xc4, 0x98], [0xa1, 0x76, 0xc4, 0x98]);
    WordIs(11, [0x0c, 0x0d, 0x0e, 0x0f], [0xa9, 0x7f, 0xce, 0x93], [0xa9, 0x7f, 0xce, 0x93]);
    WordIs(12, [0x10, 0x11, 0x12, 0x13], [0xa5, 0x72, 0xc0, 0x9c], [0x06, 0x40, 0xba, 0xde]);
    WordIs(13, [0x14, 0x15, 0x16, 0x17], [0x16, 0x51, 0xa8, 0xcd], [0x16, 0x51, 0xa8, 0xcd]);
    WordIs(14, [0x18, 0x19, 0x1a, 0x1b], [0x02, 0x44, 0xbe, 0xda], [0x02, 0x44, 0xbe, 0xda]);
    WordIs(15, [0x1c, 0x1d, 0x1e, 0x1f], [0x1a, 0x5d, 0xa4, 0xc1], [0x1a, 0x5d, 0xa4, 0xc1]);
  }

  lemma Subs16()
    ensures Sbox(0x06) == 0x6f && Sbox(0x40) == 0x09 && Sbox(0xba) == 0xf4 && Sbox(0xde) == 0x1d
  {
  }

  lemma Subs20()
    ensures Sbox(0x03) == 0x7b && Sbox(0xfc) == 0xb0 && Sbox(0x15) == 0x59 && Sbox(0x67) == 0x85
  {
  }

  lemma Words2()
    ensures Word(KEY, 16) == [0xae, 0x87, 0xdf, 0xf0] && Word(KEY, 17) == [0x0f, 0xf1, 0x1b, 0x68]
    ensures Word(KEY, 18) == [0xa6, 0x8e, 0xd5, 0xfb] && Word(KEY, 19) == [0x03, 0xfc, 0x15, 0x67]
    ensures Word(KEY, 20) == [0x6d, 0xe1, 0xf1, 0x48] && Word(KEY, 21) == [0x6f, 0xa5, 0x4f, 0x92]
    ensures Word(KEY, 22) == [0x75, 0xf8, 0xeb, 0x53] && Word(KEY, 23) == [0x73, 0xb8, 0x51, 0x8d]
  {
    hide Word, Sbox, Rcon;
    Words1();
    Subs16();
    Subs20();
    Constants();
    WordIs(16, [0xa5, 0x73, 0xc2, 0x9f], [0x06, 0x40, 0xba, 0xde], [0x0b, 0xf4, 0x1d, 0x6f]);
    WordIs(17, [0xa1, 0x76, 0xc4, 0x98], [0xae, 0x87, 0xdf, 0xf0], [0xae, 0x87, 0xdf, 0xf0]);
    WordIs(18, [0xa9, 0x7f, 0xce, 0x93], [0x0f, 0xf1, 0x1b, 0x68], [0x0f, 0xf1, 0x1b, 0x68]);
    WordIs(19, [0xa5, 0x72, 0xc0, 0x9c], [0xa6, 0x8e, 0xd5, 0xfb], [0xa6, 0x8e, 0xd5, 0xfb]);
    WordIs(20, [0x16, 0x51, 0xa8, 0xcd], [0x03, 0xfc, 0x15, 0x67], [0x7b, 0xb0, 0x59, 0x85]);
    WordIs(21, [0x02, 0x44, 0xbe, 0xda], [0x6d, 0xe1, 0xf1, 0x48], [0x6d, 0xe1, 0xf1, 0x48]);
    WordIs(22, [0x1a, 0x5d, 0xa4, 0xc1], [0x6f, 0xa5, 0x4f, 0x92], [0x6f, 0xa5, 0x4f, 0x92]);
    WordIs(23, [0x06, 0x40, 0xba, 0xde], [0x75, 0xf8, 0xeb, 0x53], [0x75, 0xf8, 0xeb, 0x53]);
  }

  lemma Subs24()
    ensures Sbox(0x73) == 0x8f && Sbox(0xb8) == 0x6c && Sbox(0x51) == 0xd1 && Sbox(0x8d) == 0x5d
  {
  }

  lemma Subs28()
    ensures Sbox(0x6c) == 0x50 && Sbox(0xd5) == 0x03 && Sbox(0x59) == 0xcb && Sbox(0x8b) == 0x3d
  {
  }

  lemma Words3()
    ensures Word(KEY, 24) == [0xc6, 0x56, 0x82, 0x7f] && Word(KEY, 25) == [0xc9, 0xa7, 0x99, 0x17]
    ensures Word(KEY, 26) == [0x6f, 0x29, 0x4c, 0xec] && Word(KEY, 27) == [0x6c, 0xd5, 0x59, 0x8b]
    ensures Word(KEY, 28) == [0x3d, 0xe2, 0x3a, 0x75] && Word(KEY, 29) == [0x52, 0x47, 0x75, 0xe7]
    ensures Word(KEY, 30) == [0x27, 0xbf, 0x9e, 0xb4] && Word(KEY, 31) == [0x54, 0x07, 0xcf, 0x39]
  {
    hide Word, Sbox, Rcon;
    Words2();
    Subs24();
    Subs28();
    Constants();
    WordIs(24, [0xae, 0x87, 0xdf, 0xf0], [0x73, 0xb8, 0x51, 0x8d], [0x68, 0xd1, 0x5d, 0x8f]);
    WordIs(25, [0x0f, 0xf1, 0x1b, 0x68], [0xc6, 0x56, 0x82, 0x7f], [0xc6, 0x56, 0x82, 0x7f]);
    WordIs(26, [0xa6, 0x8e, 0xd5, 0xfb], [0xc9, 0xa7, 0x99, 0x17], [0xc9, 0xa7, 0x99, 0x17]);
    WordIs(27, [0x03, 0xfc, 0x15, 0x67], [0x6f, 0x29, 0x4c, 0xec], [0x6f, 0x29, 0x4c, 0xec]);
    WordIs(28, [0x6d, 0xe1, 0xf1, 0x48], [0x6c, 0xd5, 0x59, 0x8b], [0x50, 0x03, 0xcb, 0x3d]);
    WordIs(29, [0x6f, 0xa5, 0x4f, 0x92], [0x3d, 0xe2, 0x3a, 0x75], [0x3d, 0xe2, 0x3a, 0x75]);
    WordIs(30, [0x75, 0xf8, 0xeb, 0x53], [0x52, 0x47, 0x75, 0xe7], [0x52, 0x47, 0x75, 0xe7]);
    WordIs(31, [0x73, 0xb8, 0x51, 0x8d], [0x27, 0xbf, 0x9e, 0xb4], [0x27, 0xbf, 0x9e, 0xb4]);
  }

  lemma Subs32()
    ensures Sbox(0x54) == 0x20 && Sbox(0x07) == 0xc5 && Sbox(0xcf) == 0x8a && Sbox(0x39) == 0x12
  {
  }

  lemma Subs36()
    ensures Sbox(0xc1) == 0x78 && Sbox(0x87) == 0x17 && Sbox(0x1c) == 0x9c && Sbox(0x2f) == 0x15
  {
  }

  lemma Words4()
    ensures Word(KEY, 32) == [0x0b, 0xdc, 0x90, 0x5f] && Word(KEY, 33) == [0xc2, 0x7b, 0x09, 0x48]
    ensures Word(KEY, 34) == [0xad, 0x52, 0x45, 0xa4] && Word(KEY, 35) == [0xc1, 0x87, 0x1c, 0x2f]
    ensures Word(KEY, 36) == [0x45, 0xf5, 0xa6, 0x60] && Word(KEY, 37) == [0x17, 0xb2, 0xd3, 0x87]
    ensures Word(KEY, 38) == [0x30, 0x0d, 0x4d, 0x33] && Word(KEY, 39) == [0x64, 0x0a, 0x82, 0x0a]
  {
    hide Word, Sbox, Rcon;
    Words3();
    Subs32();
    Subs36();
    Constants();
    WordIs(32, [0xc6, 0x56, 0x82, 0x7f], [0x54, 0x07, 0xcf, 0x39], [0xcd, 0x8a, 0x12, 0x20]);
    WordIs(33, [0xc9, 0xa7, 0x99, 0x17], [0x0b, 0xdc, 0x90, 0x5f], [0x0b, 0xdc, 0x90, 0x5f]);
    WordIs(34, [0x6f, 0x29, 0x4c, 0xec], [0xc2, 0x7b, 0x09, 0x48], [0xc2, 0x7b, 0x09, 0x48]);
    WordIs(35, [0x6c, 0xd5, 0x59, 0x8b], [0xad, 0x52, 0x45, 0xa4], [0xad, 0x52, 0x45, 0xa4]);
    WordIs(36, [0x3d, 0xe2, 0x3a, 0x75], [0xc1, 0x87, 0x1c, 0x2f], [0x78, 0x17, 0x9c, 0x15]);
    WordIs(37, [0x52, 0x47, 0x75, 0xe7], [0x45, 0xf5, 0xa6, 0x60], [0x45, 0xf5, 0xa6, 0x60]);
    WordIs(38, [0x27, 0xbf, 0x9e, 0xb4], [0x17, 0xb2, 0xd3, 0x87], [0x17, 0xb2, 0xd3, 0x87]);
    WordIs(39, [0x54, 0x07, 0xcf, 0x39], [0x30, 0x0d, 0x4d, 0x33], [0x30, 0x0d, 0x4d, 0x33]);
  }

  lemma Subs40()
    ensures Sbox(0x64) == 0x43 && Sbox(0x0a) == 0x67 && Sbox(0x82) == 0x13 && Sbox(0x0a) == 0x67
  {
  }

  lemma Subs44()
    ensures Sbox(0xd2) == 0xb5 && Sbox(0x61) == 0xef && Sbox(0xa7) == 0x5c && Sbox(0xdf) == 0x9e
  {
  }

  lemma Words5()
    ensures Word(KEY, 40) == [0x7c, 0xcf, 0xf7, 0x1c] && Word(KEY, 41) == [0xbe, 0xb4, 0xfe, 0x54]
    ensures Word(KEY, 42) == [0x13, 0xe6, 0xbb, 0xf0] && Word(KEY, 43) == [0xd2, 0x61, 0xa7, 0xdf]
    ensures Word(KEY, 44) == [0xf0, 0x1a, 0xfa, 0xfe] && Word(KEY, 45) == [0xe7, 0xa8, 0x29, 0x79]
    ensures Word(KEY, 46) == [0xd7, 0xa5, 0x64, 0x4a] && Word(KEY, 47) == [0xb3, 0xaf, 0xe6, 0x40]
  {
    hide Word, Sbox, Rcon;
    Words4();
    Subs40();
    Subs44();
    Constants();
    WordIs(40, [0x0b, 0xdc, 0x90, 0x5f], [0x64, 0x0a, 0x82, 0x0a], [0x77, 0x13, 0x67, 0x43]);
    WordIs(41, [0xc2, 0x7b, 0x09, 0x48], [0x7c, 0xcf, 0xf7, 0x1c], [0x7c, 0xcf, 0xf7, 0x1c]);
    WordIs(42, [0xad, 0x52, 0x45, 0xa4], [0xbe, 0xb4, 0xfe, 0x54], [0xbe, 0xb4, 0xfe, 0x54]);
    WordIs(43, [0xc1, 0x87, 0x1c, 0x2f], [0x13, 0xe6, 0xbb, 0xf0], [0x13, 0xe6, 0xbb, 0xf0]);
    WordIs(44, [0x45, 0xf5, 0xa6, 0x60], [0xd2, 0x61, 0xa7, 0xdf], [0xb5, 0xef, 0x5c, 0x9e]);
    WordIs(45, [0x17, 0xb2, 0xd3, 0x87], [0xf0, 0x1a, 0xfa, 0xfe], [0xf0, 0x1a, 0xfa, 0xfe]);
    WordIs(46, [0x30, 0x0d, 0x4d, 0x33], [0xe7, 0xa8, 0x29, 0x79], [0xe7, 0xa8, 0x29, 0x79]);
    WordIs(47, [0x64, 0x0a, 0x82, 0x0a], [0xd7, 0xa5, 0x64, 0x4a], [0xd7, 0xa5, 0x64, 0x4a]);
  }

  lemma Subs48()
    ensures Sbox(0xb3) == 0x6d && Sbox(0xaf) == 0x79 && Sbox(0xe6) == 0x8e && Sbox(0x40) == 0x09
  {
  }

  lemma Subs52()
    ensures Sbox(0x5a) == 0xbe && Sbox(0x72) == 0x40 && Sbox(0x1c) == 0x9c && Sbox(0x0a) == 0x67
  {
  }

  lemma Words6()
    ensures Word(KEY, 48) == [0x25, 0x41, 0xfe, 0x71] && Word(KEY, 49) == [0x9b, 0xf5, 0x00, 0x25]
    ensures Word(KEY, 50) == [0x88, 0x13, 0xbb, 0xd5] && Word(KEY, 51) == [0x5a, 0x72, 0x1c, 0x0a]
    ensures Word(KEY, 52) == [0x4e, 0x5a, 0x66, 0x99] && Word(KEY, 53) == [0xa9, 0xf2, 0x4f, 0xe0]
    ensures Word(KEY, 54) == [0x7e, 0x57, 0x2b, 0xaa] && Word(KEY, 55) == [0xcd, 0xf8, 0xcd, 0xea]
  {
    hide Word, Sbox, Rcon;
    Words5();
    Subs48();
    Subs52();
    Constants();
    WordIs(48, [0x7c, 0xcf, 0xf7, 0x1c], [0xb3, 0xaf, 0xe6, 0x40], [0x59, 0x8e, 0x09, 0x6d]);
    WordIs(49, [0xbe, 0xb4, 0xfe, 0x54], [0x25, 0x41, 0xfe, 0x71], [0x25, 0x41, 0xfe, 0x71]);
    WordIs(50, [0x13, 0xe6, 0xbb, 0xf0], [0x9b, 0xf5, 0x00, 0x25], [0x9b, 0xf5, 0x00, 0x25]);
    WordIs(51, [0xd2, 0x61, 0xa7, 0xdf], [0x88, 0x13, 0xbb, 0xd5], [0x88, 0x13, 0xbb, 0xd5]);
    WordIs(52, [0xf0, 0x1a, 0xfa, 0xfe], [0x5a, 0x72, 0x1c, 0x0a], [0xbe, 0x40, 0x9c, 0x67]);
    WordIs(53, [0xe7, 0xa8, 0x29, 0x79], [0x4e, 0x5a, 0x66, 0x99], [0x4e, 0x5a, 0x66, 0x99]);
    WordIs(54, [0xd7, 0xa5, 0x64, 0x4a], [0xa9, 0xf2, 0x4f, 0xe0], [0xa9, 0xf2, 0x4f, 0xe0]);
    WordIs(55, [0xb3, 0xaf, 0xe6, 0x40], [0x7e, 0x57, 0x2b, 0xaa], [0x7e, 0x57, 0x2b, 0xaa]);
  }

  lemma Subs56()
    ensures Sbox(0xcd) == 0xbd && Sbox(0xf8) == 0x41 && Sbox(0xcd) == 0xbd && Sbox(0xea) == 0x87
  {
  }

  lemma Words7()
    ensures Word(KEY, 56) == [0x24, 0xfc, 0x79, 0xcc] && Word(KEY, 57) == [0xbf, 0x09, 0x79, 0xe9]
    ensures Word(KEY, 58) == [0x37, 0x1a, 0xc2, 0x3c] && Word(KEY, 59) == [0x6d, 0x68, 0xde, 0x36]
  {
    hide Word, Sbox, Rcon;
    Words6();
    Subs56();
    Constants();
    WordIs(56, [0x25, 0x41, 0xfe, 0x71], [0xcd, 0xf8, 0xcd, 0xea], [0x01, 0xbd, 0x87, 0xbd]);
    WordIs(57, [0x9b, 0xf5, 0x00, 0x25], [0x24, 0xfc, 0x79, 0xcc], [0x24, 0xfc, 0x79, 0xcc]);
    WordIs(58, [0x88, 0x13, 0xbb, 0xd5], [0xbf, 0x09, 0x79, 0xe9], [0xbf, 0x09, 0x79, 0xe9]);
    WordIs(59, [0x5a, 0x72, 0x1c, 0x0a], [0x37, 0x1a, 0xc2, 0x3c], [0x37, 0x1a, 0xc2, 0x3c]);
  }

  // ---------------------------------------------------------------- the rounds

  /** A block by its columns. */
  datatype Columns = Columns(a: seq<bv8>, b: seq<bv8>, c: seq<bv8>, d: seq<bv8>) {
    predicate Valid() {
      |a| == |b| == |c| == |d| == 4
    }

    function Block(): seq<bv8> {
      a + b + c + d
    }
  }

  lemma BlockIs(s: Columns)
    requires s.Valid()
    ensures s.Block() == [s.a[0], s.a[1], s.a[2], s.a[3], s.b[0], s.b[1], s.b[2], s.b[3],
                          s.c[0], s.c[1], s.c[2], s.c[3], s.d[0], s.d[1], s.d[2], s.d[3]]
  {
  }

  lemma ShiftedSub(s: seq<bv8>)
    requires IsBlock(s)
    ensures Shift(Sub(s)) == [Sbox(s[0]), Sbox(s[5]), Sbox(s[10]), Sbox(s[15]),
                              Sbox(s[4]), Sbox(s[9]), Sbox(s[14]), Sbox(s[3]),
                              Sbox(s[8]), Sbox(s[13]), Sbox(s[2]), Sbox(s[7]),
                              Sbox(s[12]), Sbox(s[1]), Sbox(s[6]), Sbox(s[11])]
  {
    hide Sbox;
  }

  lemma Substituted(s: Columns, t: Columns)
    requires s.Valid() && t.Valid()
    requires t.a == [Sbox(s.a[0]), Sbox(s.b[1]), Sbox(s.c[2]), Sbox(s.d[3])]
    requires t.b == [Sbox(s.b[0]), Sbox(s.c[1]), Sbox(s.d[2]), Sbox(s.a[3])]
    requires t.c == [Sbox(s.c[0]), Sbox(s.d[1]), Sbox(s.a[2]), Sbox(s.b[3])]
    requires t.d == [Sbox(s.d[0]), Sbox(s.a[1]), Sbox(s.b[2]), Sbox(s.c[3])]
    ensures Shift(Sub(s.Block())) == t.Block()
  {
    hide Sbox, Shift, Sub, Columns.Block;
    BlockIs(s);
    BlockIs(t);
    ShiftedSub(s.Block());
  }

  lemma MixedIs(a: bv8, b: bv8, c: bv8, d: bv8)
    ensures Mixed(a, b, c, d) == (Xtime(a) ^ (b ^ Xtime(b))) ^ (c ^ d)
  {
    SmallProducts(a);
    SmallProducts(b);
    hide Product, Xtime;
  }

  lemma ColumnIs(a: bv8, b: bv8, c: bv8, d: bv8)
    ensures MixColumn([a, b, c, d])
         == [(Xtime(a) ^ (b ^ Xtime(b))) ^ (c ^ d), (Xtime(b) ^ (c ^ Xtime(c))) ^ (d ^ a),
             (Xtime(c) ^ (d ^ Xtime(d))) ^ (a ^ b), (Xtime(d) ^ (a ^ Xtime(a))) ^ (b ^ c)]
  {
    hide Mixed, Xtime;
    MixedIs(a, b, c, d);
    MixedIs(b, c, d, a);
    MixedIs(c, d, a, b);
    MixedIs(d, a, b, c);
  }

  lemma MixIs(s: Columns)
    requires s.Valid()
    ensures Mix(s.Block()) == MixColumn(s.a) + MixColumn(s.b) + MixColumn(s.c) + MixColumn(s.d)
  {
    hide MixColumn;
    var t := s.Block();
    assert t[0..4] == s.a && t[4..8] == s.b && t[8..12] == s.c && t[12..16] == s.d;
    assert MixColumnsOf(t, 1) == MixColumnsOf(t, 0) + MixColumn(s.a) == MixColumn(s.a);
    assert MixColumnsOf(t, 2) == MixColumn(s.a) + MixColumn(s.b);
    assert MixColumnsOf(t, 3) == MixColumn(s.a) + MixColumn(s.b) + MixColumn(s.c);
  }

  lemma XorJoin(a: seq<bv8>, b: seq<bv8>, c: seq<bv8>, d: seq<bv8>)
    requires |a| == |c| && |b| == |d|
    ensures Xor(a + b, c + d) == Xor(a, c) + Xor(b, d)
  {
  }

  lemma XorColumns(s: Columns, k: Columns)
    requires s.Valid() && k.Valid()
    ensures Xor(s.Block(), k.Block()) == Xor(s.a, k.a) + Xor(s.b, k.b) + Xor(s.c, k.c) + Xor(s.d, k.d)
  {
    hide Xor;
    XorJoin(s.a, s.b, k.a, k.b);
    XorJoin(s.a + s.b, s.c, k.a + k.b, k.c);
    XorJoin(s.a + s.b + s.c, s.d, k.a + k.b + k.c, k.d);
  }

  /** A round: `t` is the block substituted and shifted, `r` its columns mixed and combined with the key's words. */
  lemma RoundIs(round: nat, s: Columns, t: Columns, r: Columns)
    requires 0 < round < ROUNDS && s.Valid() && t.Valid() && r.Valid()
    requires Rounds(Schedule(KEY, WORDS), round - 1, PLAINTEXT) == s.Block() && Shift(Sub(s.Block())) == t.Block()
    requires r.a == Xor(MixColumn(t.a), Word(KEY, 4 * round))
    requires r.b == Xor(MixColumn(t.b), Word(KEY, 4 * round + 1))
    requires r.c == Xor(MixColumn(t.c), Word(KEY, 4 * round + 2))
    requires r.d == Xor(MixColumn(t.d), Word(KEY, 4 * round + 3))
    ensures Rounds(Schedule(KEY, WORDS), round, PLAINTEXT) == r.Block()
  {
    hide Shift, Sub, Mix, Xor, MixColumn, RoundKey, Schedule, Word;
    RoundKeyIsWords(KEY, round);
    MixIs(t);
    var w := 4 * round;
    var m := Columns(MixColumn(t.a), MixColumn(t.b), MixColumn(t.c), MixColumn(t.d));
    var k := Columns(Word(KEY, w), Word(KEY, w + 1), Word(KEY, w + 2), Word(KEY, w + 3));
    XorColumns(m, k);
    assert m.Block() == Mix(t.Block()) && k.Block() == RoundKey(Schedule(KEY, WORDS), round);
    assert r.Block() == Xor(m.Block(), k.Block());
  }

  const PLAIN := Columns(
      [0x00, 0x11, 0x22, 0x33], [0x44, 0x55, 0x66, 0x77],
      [0x88, 0x99, 0xaa, 0xbb], [0xcc, 0xdd, 0xee, 0xff])
  const CIPHER := Columns(
      [0x8e, 0xa2, 0xb7, 0xca], [0x51, 0x67, 0x45, 0xbf],
      [0xea, 0xfc, 0x49, 0x90], [0x4b, 0x49, 0x60, 0x89])

  lemma Given()
    ensures PLAIN.Block() == PLAINTEXT
  {
    hide Columns.Block;
    BlockIs(PLAIN);
  }

  lemma Wanted()
    ensures CIPHER.Block() == CIPHERTEXT
  {
    hide Columns.Block;
    BlockIs(CIPHER);
  }

  lemma Column0_0()
    ensures Xor([0x00, 0x11, 0x22, 0x33], Word(KEY, 0)) == [0x00, 0x10, 0x20, 0x30]
  {
    hide Xor, Word;
    Words0();
    XorWord([0x00, 0x11, 0x22, 0x33], [0x00, 0x01, 0x02, 0x03]);
  }

  lemma Column0_1()
    ensures Xor([0x44, 0x55, 0x66, 0x77], Word(KEY, 1)) == [0x40, 0x50, 0x60, 0x70]
  {
    hide Xor, Word;
    Words0();
    XorWord([0x44, 0x55, 0x66, 0x77], [0x04, 0x05, 0x06, 0x07]);
  }

  lemma Column0_2()
    ensures Xor([0x88, 0x99, 0xaa, 0xbb], Word(KEY, 2)) == [0x80, 0x90, 0xa0, 0xb0]
  {
    hide Xor, Word;
    Words0();
    XorWord([0x88, 0x99, 0xaa, 0xbb], [0x08, 0x09, 0x0a, 0x0b]);
  }

  lemma Column0_3()
    ensures Xor([0xcc, 0xdd, 0xee, 0xff], Word(KEY, 3)) == [0xc0, 0xd0, 0xe0, 0xf0]
  {
    hide Xor, Word;
    Words0();
    XorWord([0xcc, 0xdd, 0xee, 0xff], [0x0c, 0x0d, 0x0e, 0x0f]);
  }

  lemma State0()
    ensures Rounds(Schedule(KEY, WORDS), 0, PLAINTEXT) == START0.Block()
  {
    hide RoundKey, Schedule, Xor, Word;
    RoundKeyIsWords(KEY, 0);
    Given();
    Column0_0();
    Column0_1();
    Column0_2();
    Column0_3();
    XorColumns(PLAIN, Columns(Word(KEY, 0), Word(KEY, 1), Word(KEY, 2), Word(KEY, 3)));
  }

  const START0 := Columns(
      [0x00, 0x10, 0x20, 0x30], [0x40, 0x50, 0x60, 0x70],
      [0x80, 0x90, 0xa0, 0xb0], [0xc0, 0xd0, 0xe0, 0xf0])
  const START1 := Columns(
      [0x4f, 0x63, 0x76, 0x06], [0x43, 0xe0, 0xaa, 0x85],
      [0xef, 0xa7, 0x21, 0x32], [0x01, 0xa4, 0xe7, 0x05])
  const START2 := Columns(
      [0x18, 0x59, 0xfb, 0xc2], [0x8a, 0x1c, 0x00, 0xa0],
      [0x78, 0xed, 0x8a, 0xad], [0xc4, 0x2f, 0x61, 0x09])
  const START3 := Columns(
      [0x97, 0x5c, 0x66, 0xc1], [0xcb, 0x9f, 0x3f, 0xa8],
      [0xa9, 0x3a, 0x28, 0xdf], [0x8e, 0xe1, 0x0f, 0x63])
  const START4 := Columns(
      [0x1c, 0x05, 0xf2, 0x71], [0xa4, 0x17, 0xe0, 0x4f],
      [0xf9, 0x21, 0xc5, 0xc1], [0x04, 0x70, 0x15, 0x54])
  const START5 := Columns(
      [0xc3, 0x57, 0xaa, 0xe1], [0x1b, 0x45, 0xb7, 0xb0],
      [0xa2, 0xc7, 0xbd, 0x28], [0xa8, 0xdc, 0x99, 0xfa])
  const START6 := Columns(
      [0x7f, 0x07, 0x41, 0x43], [0xcb, 0x4e, 0x24, 0x3e],
      [0xc1, 0x0c, 0x81, 0x5d], [0x83, 0x75, 0xd5, 0x4c])
  const START7 := Columns(
      [0xd6, 0x53, 0xa4, 0x69], [0x6c, 0xa0, 0xbc, 0x0f],
      [0x5a, 0xca, 0xab, 0x5d], [0xb9, 0x6c, 0x5e, 0x7d])
  const START8 := Columns(
      [0x5a, 0xa8, 0x58, 0x39], [0x5f, 0xd2, 0x8d, 0x7d],
      [0x05, 0xe1, 0xa3, 0x88], [0x68, 0xf3, 0xb9, 0xc5])
  const START9 := Columns(
      [0x4a, 0x82, 0x48, 0x51], [0xc5, 0x7e, 0x7e, 0x47],
      [0x64, 0x3d, 0xe5, 0x0c], [0x2a, 0xf3, 0xe8, 0xc9])
  const START10 := Columns(
      [0xc1, 0x49, 0x07, 0xf6], [0xca, 0x3b, 0x3a, 0xa0],
      [0x70, 0xe9, 0xaa, 0x31], [0x3b, 0x52, 0xb5, 0xec])
  const START11 := Columns(
      [0x5f, 0x9c, 0x6a, 0xbf], [0xba, 0xc6, 0x34, 0xaa],
      [0x50, 0x40, 0x9f, 0xa7], [0x66, 0x67, 0x76, 0x53])
  const START12 := Columns(
      [0x51, 0x66, 0x04, 0x95], [0x43, 0x53, 0x95, 0x03],
      [0x14, 0xfb, 0x86, 0xe4], [0x01, 0x92, 0x25, 0x21])
  const START13 := Columns(
      [0x62, 0x7b, 0xce, 0xb9], [0x99, 0x9d, 0x5a, 0xaa],
      [0xc9, 0x45, 0xec, 0xf4], [0x23, 0xf5, 0x6d, 0xa5])

  const SHIFTED1 := Columns(
      [0x63, 0x53, 0xe0, 0x8c], [0x09, 0x60, 0xe1, 0x04],
      [0xcd, 0x70, 0xb7, 0x51], [0xba, 0xca, 0xd0, 0xe7])
  const SHIFTED2 := Columns(
      [0x84, 0xe1, 0xfd, 0x6b], [0x1a, 0x5c, 0x94, 0x6f],
      [0xdf, 0x49, 0x38, 0x97], [0x7c, 0xfb, 0xac, 0x23])
  const SHIFTED3 := Columns(
      [0xad, 0x9c, 0x7e, 0x01], [0x7e, 0x55, 0xef, 0x25],
      [0xbc, 0x15, 0x0f, 0xe0], [0x1c, 0xcb, 0x63, 0x95])
  const SHIFTED4 := Columns(
      [0x88, 0xdb, 0x34, 0xfb], [0x1f, 0x80, 0x76, 0x78],
      [0xd3, 0xf8, 0x33, 0xc2], [0x19, 0x4a, 0x75, 0x9e])
  const SHIFTED5 := Columns(
      [0x9c, 0xf0, 0xa6, 0x20], [0x49, 0xfd, 0x59, 0xa3],
      [0x99, 0x51, 0x89, 0x84], [0xf2, 0x6b, 0xe1, 0x78])
  const SHIFTED6 := Columns(
      [0x2e, 0x6e, 0x7a, 0x2d], [0xaf, 0xc6, 0xee, 0xf8],
      [0x3a, 0x86, 0xac, 0xe7], [0xc2, 0x5b, 0xa9, 0x34])
  const SHIFTED7 := Columns(
      [0xd2, 0x2f, 0x0c, 0x29], [0x1f, 0xfe, 0x03, 0x1a],
      [0x78, 0x9d, 0x83, 0xb2], [0xec, 0xc5, 0x36, 0x4c])
  const SHIFTED8 := Columns(
      [0xf6, 0xe0, 0x62, 0xff], [0x50, 0x74, 0x58, 0xf9],
      [0xbe, 0x50, 0x49, 0x76], [0x56, 0xed, 0x65, 0x4c])
  const SHIFTED9 := Columns(
      [0xbe, 0xb5, 0x0a, 0xa6], [0xcf, 0xf8, 0x56, 0x12],
      [0x6b, 0x0d, 0x6a, 0xff], [0x45, 0xc2, 0x5d, 0xc4])
  const SHIFTED10 := Columns(
      [0xd6, 0xf3, 0xd9, 0xdd], [0xa6, 0x27, 0x9b, 0xd1],
      [0x43, 0x0d, 0x52, 0xa0], [0xe5, 0x13, 0xf3, 0xfe])
  const SHIFTED11 := Columns(
      [0x78, 0xe2, 0xac, 0xce], [0x74, 0x1e, 0xd5, 0x42],
      [0x51, 0x00, 0xc5, 0xe0], [0xe2, 0x3b, 0x80, 0xc7])
  const SHIFTED12 := Columns(
      [0xcf, 0xb4, 0xdb, 0xed], [0xf4, 0x09, 0x38, 0x08],
      [0x53, 0x85, 0x02, 0xac], [0x33, 0xde, 0x18, 0x5c])
  const SHIFTED13 := Columns(
      [0xd1, 0xed, 0x44, 0xfd], [0x1a, 0x0f, 0x3f, 0x2a],
      [0xfa, 0x4f, 0xf2, 0x7b], [0x7c, 0x33, 0x2a, 0x69])
  const SHIFTED14 := Columns(
      [0xaa, 0x5e, 0xce, 0x06], [0xee, 0x6e, 0x3c, 0x56],
      [0xdd, 0xe6, 0x8b, 0xac], [0x26, 0x21, 0xbe, 0xbf])

  lemma Column1_0()
    ensures Sbox(0x00) == 0x63 && Sbox(0x50) == 0x53 && Sbox(0xa0) == 0xe0 && Sbox(0xf0) == 0x8c
    ensures Xor(MixColumn([0x63, 0x53, 0xe0, 0x8c]), Word(KEY, 4)) == [0x4f, 0x63, 0x76, 0x06]
  {
    hide Xor, Word, MixColumn;
    Words0();
    ColumnIs(0x63, 0x53, 0xe0, 0x8c);
    XorWord([0x5f, 0x72, 0x64, 0x15], [0x10, 0x11, 0x12, 0x13]);
  }

  lemma Column1_1()
    ensures Sbox(0x40) == 0x09 && Sbox(0x90) == 0x60 && Sbox(0xe0) == 0xe1 && Sbox(0x30) == 0x04
    ensures Xor(MixColumn([0x09, 0x60, 0xe1, 0x04]), Word(KEY, 5)) == [0x43, 0xe0, 0xaa, 0x85]
  {
    hide Xor, Word, MixColumn;
    Words0();
    ColumnIs(0x09, 0x60, 0xe1, 0x04);
    XorWord([0x57, 0xf5, 0xbc, 0x92], [0x14, 0x15, 0x16, 0x17]);
  }

  lemma Column1_2()
    ensures Sbox(0x80) == 0xcd && Sbox(0xd0) == 0x70 && Sbox(0x20) == 0xb7 && Sbox(0x70) == 0x51
    ensures Xor(MixColumn([0xcd, 0x70, 0xb7, 0x51]), Word(KEY, 6)) == [0xef, 0xa7, 0x21, 0x32]
  {
    hide Xor, Word, MixColumn;
    Words0();
    ColumnIs(0xcd, 0x70, 0xb7, 0x51);
    XorWord([0xf7, 0xbe, 0x3b, 0x29], [0x18, 0x19, 0x1a, 0x1b]);
  }

  lemma Column1_3()
    ensures Sbox(0xc0) == 0xba && Sbox(0x10) == 0xca && Sbox(0x60) == 0xd0 && Sbox(0xb0) == 0xe7
    ensures Xor(MixColumn([0xba, 0xca, 0xd0, 0xe7]), Word(KEY, 7)) == [0x01, 0xa4, 0xe7, 0x05]
  {
    hide Xor, Word, MixColumn;
    Words0();
    ColumnIs(0xba, 0xca, 0xd0, 0xe7);
    XorWord([0x1d, 0xb9, 0xf9, 0x1a], [0x1c, 0x1d, 0x1e, 0x1f]);
  }

  lemma State1()
    ensures Rounds(Schedule(KEY, WORDS), 1, PLAINTEXT) == START1.Block()
  {
    hide Sbox, Shift, Sub, Xor, MixColumn, Schedule, Word, Rounds, Columns.Block;
    State0();
    Column1_0();
    Column1_1();
    Column1_2();
    Column1_3();
    Substituted(START0, SHIFTED1);
    RoundIs(1, START0, SHIFTED1, START1);
  }

  lemma Column2_0()
    ensures Sbox(0x4f) == 0x84 && Sbox(0xe0) == 0xe1 && Sbox(0x21) == 0xfd && Sbox(0x05) == 0x6b
    ensures Xor(MixColumn([0x84, 0xe1, 0xfd, 0x6b]), Word(KEY, 8)) == [0x18, 0x59, 0xfb, 0xc2]
  {
    hide Xor, Word, MixColumn;
    Words1();
    ColumnIs(0x84, 0xe1, 0xfd, 0x6b);
    XorWord([0xbd, 0x2a, 0x39, 0x5d], [0xa5, 0x73, 0xc2, 0x9f]);
  }

  lemma Column2_1()
    ensures Sbox(0x43) == 0x1a && Sbox(0xa7) == 0x5c && Sbox(0xe7) == 0x94 && Sbox(0x06) == 0x6f
    ensures Xor(MixColumn([0x1a, 0x5c, 0x94, 0x6f]), Word(KEY, 9)) == [0x8a, 0x1c, 0x00, 0xa0]
  {
    hide Xor, Word, MixColumn;
    Words1();
    ColumnIs(0x1a, 0x5c, 0x94, 0x6f);
    XorWord([0x2b, 0x6a, 0xc4, 0x38], [0xa1, 0x76, 0xc4, 0x98]);
  }

  lemma Column2_2()
    ensures Sbox(0xef) == 0xdf && Sbox(0xa4) == 0x49 && Sbox(0x76) == 0x38 && Sbox(0x85) == 0x97
    ensures Xor(MixColumn([0xdf, 0x49, 0x38, 0x97]), Word(KEY, 10)) == [0x78, 0xed, 0x8a, 0xad]
  {
    hide Xor, Word, MixColumn;
    Words1();
    ColumnIs(0xdf, 0x49, 0x38, 0x97);
    XorWord([0xd1, 0x92, 0x44, 0x3e], [0xa9, 0x7f, 0xce, 0x93]);
  }

  lemma Column2_3()
    ensures Sbox(0x01) == 0x7c && Sbox(0x63) == 0xfb && Sbox(0xaa) == 0xac && Sbox(0x32) == 0x23
    ensures Xor(MixColumn([0x7c, 0xfb, 0xac, 0x23]), Word(KEY, 11)) == [0xc4, 0x2f, 0x61, 0x09]
  {
    hide Xor, Word, MixColumn;
    Words1();
    ColumnIs(0x7c, 0xfb, 0xac, 0x23);
    XorWord([0x61, 0x5d, 0xa1, 0x95], [0xa5, 0x72, 0xc0, 0x9c]);
  }

  lemma State2()
    ensures Rounds(Schedule(KEY, WORDS), 2, PLAINTEXT) == START2.Block()
  {
    hide Sbox, Shift, Sub, Xor, MixColumn, Schedule, Word, Rounds, Columns.Block;
    State1();
    Column2_0();
    Column2_1();
    Column2_2();
    Column2_3();
    Substituted(START1, SHIFTED2);
    RoundIs(2, START1, SHIFTED2, START2);
  }

  lemma Column3_0()
    ensures Sbox(0x18) == 0xad && Sbox(0x1c) == 0x9c && Sbox(0x8a) == 0x7e && Sbox(0x09) == 0x01
    ensures Xor(MixColumn([0xad, 0x9c, 0x7e, 0x01]), Word(KEY, 12)) == [0x97, 0x5c, 0x66, 0xc1]
  {
    hide Xor, Word, MixColumn;
    Words1();
    ColumnIs(0xad, 0x9c, 0x7e, 0x01);
    XorWord([0x81, 0x0d, 0xce, 0x0c], [0x16, 0x51, 0xa8, 0xcd]);
  }

  lemma Column3_1()
    ensures Sbox(0x8a) == 0x7e && Sbox(0xed) == 0x55 && Sbox(0x61) == 0xef && Sbox(0xc2) == 0x25
    ensures Xor(MixColumn([0x7e, 0x55, 0xef, 0x25]), Word(KEY, 13)) == [0xcb, 0x9f, 0x3f, 0xa8]
  {
    hide Xor, Word, MixColumn;
    Words1();
    ColumnIs(0x7e, 0x55, 0xef, 0x25);
    XorWord([0xc9, 0xdb, 0x81, 0x72], [0x02, 0x44, 0xbe, 0xda]);
  }

  lemma Column3_2()
    ensures Sbox(0x78) == 0xbc && Sbox(0x2f) == 0x15 && Sbox(0xfb) == 0x0f && Sbox(0xa0) == 0xe0
    ensures Xor(MixColumn([0xbc, 0x15, 0x0f, 0xe0]), Word(KEY, 14)) == [0xa9, 0x3a, 0x28, 0xdf]
  {
    hide Xor, Word, MixColumn;
    Words1();
    ColumnIs(0xbc, 0x15, 0x0f, 0xe0);
    XorWord([0xb3, 0x67, 0x8c, 0x1e], [0x1a, 0x5d, 0xa4, 0xc1]);
  }

  lemma Column3_3()
    ensures Sbox(0xc4) == 0x1c && Sbox(0x59) == 0xcb && Sbox(0x00) == 0x63 && Sbox(0xad) == 0x95
    ensures Xor(MixColumn([0x1c, 0xcb, 0x63, 0x95]), Word(KEY, 15)) == [0x8e, 0xe1, 0x0f, 0x63]
  {
    hide Xor, Word, MixColumn;
    Words1();
    ColumnIs(0x1c, 0xcb, 0x63, 0x95);
    XorWord([0x88, 0xa1, 0xb5, 0xbd], [0x06, 0x40, 0xba, 0xde]);
  }

  lemma State3()
    ensures Rounds(Schedule(KEY, WORDS), 3, PLAINTEXT) == START3.Block()
  {
    hide Sbox, Shift, Sub, Xor, MixColumn, Schedule, Word, Rounds, Columns.Block;
    State2();
    Column3_0();
    Column3_1();
    Column3_2();
    Column3_3();
    Substituted(START2, SHIFTED3);
    RoundIs(3, START2, SHIFTED3, START3);
  }

  lemma Column4_0()
    ensures Sbox(0x97) == 0x88 && Sbox(0x9f) == 0xdb && Sbox(0x28) == 0x34 && Sbox(0x63) == 0xfb
    ensures Xor(MixColumn([0x88, 0xdb, 0x34, 0xfb]), Word(KEY, 16)) == [0x1c, 0x05, 0xf2, 0x71]
  {
    hide Xor, Word, MixColumn;
    Words2();
    ColumnIs(0x88, 0xdb, 0x34, 0xfb);
    XorWord([0xb2, 0x82, 0x2d, 0x81], [0xae, 0x87, 0xdf, 0xf0]);
  }

  lemma Column4_1()
    ensures Sbox(0xcb) == 0x1f && Sbox(0x3a) == 0x80 && Sbox(0x0f) == 0x76 && Sbox(0xc1) == 0x78
    ensures Xor(MixColumn([0x1f, 0x80, 0x76, 0x78]), Word(KEY, 17)) == [0xa4, 0x17, 0xe0, 0x4f]
  {
    hide Xor, Word, MixColumn;
    Words2();
    ColumnIs(0x1f, 0x80, 0x76, 0x78);
    XorWord([0xab, 0xe6, 0xfb, 0x27], [0x0f, 0xf1, 0x1b, 0x68]);
  }

  lemma Column4_2()
    ensures Sbox(0xa9) == 0xd3 && Sbox(0xe1) == 0xf8 && Sbox(0x66) == 0x33 && Sbox(0xa8) == 0xc2
    ensures Xor(MixColumn([0xd3, 0xf8, 0x33, 0xc2]), Word(KEY, 18)) == [0xf9, 0x21, 0xc5, 0xc1]
  {
    hide Xor, Word, MixColumn;
    Words2();
    ColumnIs(0xd3, 0xf8, 0x33, 0xc2);
    XorWord([0x5f, 0xaf, 0x10, 0x3a], [0xa6, 0x8e, 0xd5, 0xfb]);
  }

  lemma Column4_3()
    ensures Sbox(0x8e) == 0x19 && Sbox(0x5c) == 0x4a && Sbox(0x3f) == 0x75 && Sbox(0xdf) == 0x9e
    ensures Xor(MixColumn([0x19, 0x4a, 0x75, 0x9e]), Word(KEY, 19)) == [0x04, 0x70, 0x15, 0x54]
  {
    hide Xor, Word, MixColumn;
    Words2();
    ColumnIs(0x19, 0x4a, 0x75, 0x9e);
    XorWord([0x07, 0x8c, 0x00, 0x33], [0x03, 0xfc, 0x15, 0x67]);
  }

  lemma State4()
    ensures Rounds(Schedule(KEY, WORDS), 4, PLAINTEXT) == START4.Block()
  {
    hide Sbox, Shift, Sub, Xor, MixColumn, Schedule, Word, Rounds, Columns.Block;
    State3();
    Column4_0();
    Column4_1();
    Column4_2();
    Column4_3();
    Substituted(START3, SHIFTED4);
    RoundIs(4, START3, SHIFTED4, START4);
  }

  lemma Column5_0()
    ensures Sbox(0x1c) == 0x9c && Sbox(0x17) == 0xf0 && Sbox(0xc5) == 0xa6 && Sbox(0x54) == 0x20
    ensures Xor(MixColumn([0x9c, 0xf0, 0xa6, 0x20]), Word(KEY, 20)) == [0xc3, 0x57, 0xaa, 0xe1]
  {
    hide Xor, Word, MixColumn;
    Words2();
    ColumnIs(0x9c, 0xf0, 0xa6, 0x20);
    XorWord([0xae, 0xb6, 0x5b, 0xa9], [0x6d, 0xe1, 0xf1, 0x48]);
  }

  lemma Column5_1()
    ensures Sbox(0xa4) == 0x49 && Sbox(0x21) == 0xfd && Sbox(0x15) == 0x59 && Sbox(0x71) == 0xa3
    ensures Xor(MixColumn([0x49, 0xfd, 0x59, 0xa3]), Word(KEY, 21)) == [0x1b, 0x45, 0xb7, 0xb0]
  {
    hide Xor, Word, MixColumn;
    Words2();
    ColumnIs(0x49, 0xfd, 0x59, 0xa3);
    XorWord([0x74, 0xe0, 0xf8, 0x22], [0x6f, 0xa5, 0x4f, 0x92]);
  }

  lemma Column5_2()
    ensures Sbox(0xf9) == 0x99 && Sbox(0x70) == 0x51 && Sbox(0xf2) == 0x89 && Sbox(0x4f) == 0x84
    ensures Xor(MixColumn([0x99, 0x51, 0x89, 0x84]), Word(KEY, 22)) == [0xa2, 0xc7, 0xbd, 0x28]
  {
    hide Xor, Word, MixColumn;
    Words2();
    ColumnIs(0x99, 0x51, 0x89, 0x84);
    XorWord([0xd7, 0x3f, 0x56, 0x7b], [0x75, 0xf8, 0xeb, 0x53]);
  }

  lemma Column5_3()
    ensures Sbox(0x04) == 0xf2 && Sbox(0x05) == 0x6b && Sbox(0xe0) == 0xe1 && Sbox(0xc1) == 0x78
    ensures Xor(MixColumn([0xf2, 0x6b, 0xe1, 0x78]), Word(KEY, 23)) == [0xa8, 0xdc, 0x99, 0xfa]
  {
    hide Xor, Word, MixColumn;
    Words2();
    ColumnIs(0xf2, 0x6b, 0xe1, 0x78);
    XorWord([0xdb, 0x64, 0xc8, 0x77], [0x73, 0xb8, 0x51, 0x8d]);
  }

  lemma State5()
    ensures Rounds(Schedule(KEY, WORDS), 5, PLAINTEXT) == START5.Block()
  {
    hide Sbox, Shift, Sub, Xor, MixColumn, Schedule, Word, Rounds, Columns.Block;
    State4();
    Column5_0();
    Column5_1();
    Column5_2();
    Column5_3();
    Substituted(START4, SHIFTED5);
    RoundIs(5, START4, SHIFTED5, START5);
  }

  lemma Column6_0()
    ensures Sbox(0xc3) == 0x2e && Sbox(0x45) == 0x6e && Sbox(0xbd) == 0x7a && Sbox(0xfa) == 0x2d
    ensures Xor(MixColumn([0x2e, 0x6e, 0x7a, 0x2d]), Word(KEY, 24)) == [0x7f, 0x07, 0x41, 0x43]
  {
    hide Xor, Word, MixColumn;
    Words3();
    ColumnIs(0x2e, 0x6e, 0x7a, 0x2d);
    XorWord([0xb9, 0x51, 0xc3, 0x3c], [0xc6, 0x56, 0x82, 0x7f]);
  }

  lemma Column6_1()
    ensures Sbox(0x1b) == 0xaf && Sbox(0xc7) == 0xc6 && Sbox(0x99) == 0xee && Sbox(0xe1) == 0xf8
    ensures Xor(MixColumn([0xaf, 0xc6, 0xee, 0xf8]), Word(KEY, 25)) == [0xcb, 0x4e, 0x24, 0x3e]
  {
    hide Xor, Word, MixColumn;
    Words3();
    ColumnIs(0xaf, 0xc6, 0xee, 0xf8);
    XorWord([0x02, 0xe9, 0xbd, 0x29], [0xc9, 0xa7, 0x99, 0x17]);
  }

  lemma Column6_2()
    ensures Sbox(0xa2) == 0x3a && Sbox(0xdc) == 0x86 && Sbox(0xaa) == 0xac && Sbox(0xb0) == 0xe7
    ensures Xor(MixColumn([0x3a, 0x86, 0xac, 0xe7]), Word(KEY, 26)) == [0xc1, 0x0c, 0x81, 0x5d]
  {
    hide Xor, Word, MixColumn;
    Words3();
    ColumnIs(0x3a, 0x86, 0xac, 0xe7);
    XorWord([0xae, 0x25, 0xcd, 0xb1], [0x6f, 0x29, 0x4c, 0xec]);
  }

  lemma Column6_3()
    ensures Sbox(0xa8) == 0xc2 && Sbox(0x57) == 0x5b && Sbox(0xb7) == 0xa9 && Sbox(0x28) == 0x34
    ensures Xor(MixColumn([0xc2, 0x5b, 0xa9, 0x34]), Word(KEY, 27)) == [0x83, 0x75, 0xd5, 0x4c]
  {
    hide Xor, Word, MixColumn;
    Words3();
    ColumnIs(0xc2, 0x5b, 0xa9, 0x34);
    XorWord([0xef, 0xa0, 0x8c, 0xc7], [0x6c, 0xd5, 0x59, 0x8b]);
  }

  lemma State6()
    ensures Rounds(Schedule(KEY, WORDS), 6, PLAINTEXT) == START6.Block()
  {
    hide Sbox, Shift, Sub, Xor, MixColumn, Schedule, Word, Rounds, Columns.Block;
    State5();
    Column6_0();
    Column6_1();
    Column6_2();
    Column6_3();
    Substituted(START5, SHIFTED6);
    RoundIs(6, START5, SHIFTED6, START6);
  }

  lemma Column7_0()
    ensures Sbox(0x7f) == 0xd2 && Sbox(0x4e) == 0x2f && Sbox(0x81) == 0x0c && Sbox(0x4c) == 0x29
    ensures Xor(MixColumn([0xd2, 0x2f, 0x0c, 0x29]), Word(KEY, 28)) == [0xd6, 0x53, 0xa4, 0x69]
  {
    hide Xor, Word, MixColumn;
    Words3();
    ColumnIs(0xd2, 0x2f, 0x0c, 0x29);
    XorWord([0xeb, 0xb1, 0x9e, 0x1c], [0x3d, 0xe2, 0x3a, 0x75]);
  }

  lemma Column7_1()
    ensures Sbox(0xcb) == 0x1f && Sbox(0x0c) == 0xfe && Sbox(0xd5) == 0x03 && Sbox(0x43) == 0x1a
    ensures Xor(MixColumn([0x1f, 0xfe, 0x03, 0x1a]), Word(KEY, 29)) == [0x6c, 0xa0, 0xbc, 0x0f]
  {
    hide Xor, Word, MixColumn;
    Words3();
    ColumnIs(0x1f, 0xfe, 0x03, 0x1a);
    XorWord([0x3e, 0xe7, 0xc9, 0xe8], [0x52, 0x47, 0x75, 0xe7]);
  }

  lemma Column7_2()
    ensures Sbox(0xc1) == 0x78 && Sbox(0x75) == 0x9d && Sbox(0x41) == 0x83 && Sbox(0x3e) == 0xb2
    ensures Xor(MixColumn([0x78, 0x9d, 0x83, 0xb2]), Word(KEY, 30)) == [0x5a, 0xca, 0xab, 0x5d]
  {
    hide Xor, Word, MixColumn;
    Words3();
    ColumnIs(0x78, 0x9d, 0x83, 0xb2);
    XorWord([0x7d, 0x75, 0x35, 0xe9], [0x27, 0xbf, 0x9e, 0xb4]);
  }

  lemma Column7_3()
    ensures Sbox(0x83) == 0xec && Sbox(0x07) == 0xc5 && Sbox(0x24) == 0x36 && Sbox(0x5d) == 0x4c
    ensures Xor(MixColumn([0xec, 0xc5, 0x36, 0x4c]), Word(KEY, 31)) == [0xb9, 0x6c, 0x5e, 0x7d]
  {
    hide Xor, Word, MixColumn;
    Words3();
    ColumnIs(0xec, 0xc5, 0x36, 0x4c);
    XorWord([0xed, 0x6b, 0x91, 0x44], [0x54, 0x07, 0xcf, 0x39]);
  }

  lemma State7()
    ensures Rounds(Schedule(KEY, WORDS), 7, PLAINTEXT) == START7.Block()
  {
    hide Sbox, Shift, Sub, Xor, MixColumn, Schedule, Word, Rounds, Columns.Block;
    State6();
    Column7_0();
    Column7_1();
    Column7_2();
    Column7_3();
    Substituted(START6, SHIFTED7);
    RoundIs(7, START6, SHIFTED7, START7);
  }

  lemma Column8_0()
    ensures Sbox(0xd6) == 0xf6 && Sbox(0xa0) == 0xe0 && Sbox(0xab) == 0x62 && Sbox(0x7d) == 0xff
    ensures Xor(MixColumn([0xf6, 0xe0, 0x62, 0xff]), Word(KEY, 32)) == [0x5a, 0xa8, 0x58, 0x39]
  {
    hide Xor, Word, MixColumn;
    Words4();
    ColumnIs(0xf6, 0xe0, 0x62, 0xff);
    XorWord([0x51, 0x74, 0xc8, 0x66], [0x0b, 0xdc, 0x90, 0x5f]);
  }

  lemma Column8_1()
    ensures Sbox(0x6c) == 0x50 && Sbox(0xca) == 0x74 && Sbox(0x5e) == 0x58 && Sbox(0x69) == 0xf9
    ensures Xor(MixColumn([0x50, 0x74, 0x58, 0xf9]), Word(KEY, 33)) == [0x5f, 0xd2, 0x8d, 0x7d]
  {
    hide Xor, Word, MixColumn;
    Words4();
    ColumnIs(0x50, 0x74, 0x58, 0xf9);
    XorWord([0x9d, 0xa9, 0x84, 0x35], [0xc2, 0x7b, 0x09, 0x48]);
  }

  lemma Column8_2()
    ensures Sbox(0x5a) == 0xbe && Sbox(0x6c) == 0x50 && Sbox(0xa4) == 0x49 && Sbox(0x0f) == 0x76
    ensures Xor(MixColumn([0xbe, 0x50, 0x49, 0x76]), Word(KEY, 34)) == [0x05, 0xe1, 0xa3, 0x88]
  {
    hide Xor, Word, MixColumn;
    Words4();
    ColumnIs(0xbe, 0x50, 0x49, 0x76);
    XorWord([0xa8, 0xb3, 0xe6, 0x2c], [0xad, 0x52, 0x45, 0xa4]);
  }

  lemma Column8_3()
    ensures Sbox(0xb9) == 0x56 && Sbox(0x53) == 0xed && Sbox(0xbc) == 0x65 && Sbox(0x5d) == 0x4c
    ensures Xor(MixColumn([0x56, 0xed, 0x65, 0x4c]), Word(KEY, 35)) == [0x68, 0xf3, 0xb9, 0xc5]
  {
    hide Xor, Word, MixColumn;
    Words4();
    ColumnIs(0x56, 0xed, 0x65, 0x4c);
    XorWord([0xa9, 0x74, 0xa5, 0xea], [0xc1, 0x87, 0x1c, 0x2f]);
  }

  lemma State8()
    ensures Rounds(Schedule(KEY, WORDS), 8, PLAINTEXT) == START8.Block()
  {
    hide Sbox, Shift, Sub, Xor, MixColumn, Schedule, Word, Rounds, Columns.Block;
    State7();
    Column8_0();
    Column8_1();
    Column8_2();
    Column8_3();
    Substituted(START7, SHIFTED8);
    RoundIs(8, START7, SHIFTED8, START8);
  }

  lemma Column9_0()
    ensures Sbox(0x5a) == 0xbe && Sbox(0xd2) == 0xb5 && Sbox(0xa3) == 0x0a && Sbox(0xc5) == 0xa6
    ensures Xor(MixColumn([0xbe, 0xb5, 0x0a, 0xa6]), Word(KEY, 36)) == [0x4a, 0x82, 0x48, 0x51]
  {
    hide Xor, Word, MixColumn;
    Words4();
    ColumnIs(0xbe, 0xb5, 0x0a, 0xa6);
    XorWord([0x0f, 0x77, 0xee, 0x31], [0x45, 0xf5, 0xa6, 0x60]);
  }

  lemma Column9_1()
    ensures Sbox(0x5f) == 0xcf && Sbox(0xe1) == 0xf8 && Sbox(0xb9) == 0x56 && Sbox(0x39) == 0x12
    ensures Xor(MixColumn([0xcf, 0xf8, 0x56, 0x12]), Word(KEY, 37)) == [0xc5, 0x7e, 0x7e, 0x47]
  {
    hide Xor, Word, MixColumn;
    Words4();
    ColumnIs(0xcf, 0xf8, 0x56, 0x12);
    XorWord([0xd2, 0xcc, 0xad, 0xc0], [0x17, 0xb2, 0xd3, 0x87]);
  }

  lemma Column9_2()
    ensures Sbox(0x05) == 0x6b && Sbox(0xf3) == 0x0d && Sbox(0x58) == 0x6a && Sbox(0x7d) == 0xff
    ensures Xor(MixColumn([0x6b, 0x0d, 0x6a, 0xff]), Word(KEY, 38)) == [0x64, 0x3d, 0xe5, 0x0c]
  {
    hide Xor, Word, MixColumn;
    Words4();
    ColumnIs(0x6b, 0x0d, 0x6a, 0xff);
    XorWord([0x54, 0x30, 0xa8, 0x3f], [0x30, 0x0d, 0x4d, 0x33]);
  }

  lemma Column9_3()
    ensures Sbox(0x68) == 0x45 && Sbox(0xa8) == 0xc2 && Sbox(0x8d) == 0x5d && Sbox(0x88) == 0xc4
    ensures Xor(MixColumn([0x45, 0xc2, 0x5d, 0xc4]), Word(KEY, 39)) == [0x2a, 0xf3, 0xe8, 0xc9]
  {
    hide Xor, Word, MixColumn;
    Words4();
    ColumnIs(0x45, 0xc2, 0x5d, 0xc4);
    XorWord([0x4e, 0xf9, 0x6a, 0xc3], [0x64, 0x0a, 0x82, 0x0a]);
  }

  lemma State9()
    ensures Rounds(Schedule(KEY, WORDS), 9, PLAINTEXT) == START9.Block()
  {
    hide Sbox, Shift, Sub, Xor, MixColumn, Schedule, Word, Rounds, Columns.Block;
    State8();
    Column9_0();
    Column9_1();
    Column9_2();
    Column9_3();
    Substituted(START8, SHIFTED9);
    RoundIs(9, START8, SHIFTED9, START9);
  }

  lemma Column10_0()
    ensures Sbox(0x4a) == 0xd6 && Sbox(0x7e) == 0xf3 && Sbox(0xe5) == 0xd9 && Sbox(0xc9) == 0xdd
    ensures Xor(MixColumn([0xd6, 0xf3, 0xd9, 0xdd]), Word(KEY, 40)) == [0xc1, 0x49, 0x07, 0xf6]
  {
    hide Xor, Word, MixColumn;
    Words5();
    ColumnIs(0xd6, 0xf3, 0xd9, 0xdd);
    XorWord([0xbd, 0x86, 0xf0, 0xea], [0x7c, 0xcf, 0xf7, 0x1c]);
  }

  lemma Column10_1()
    ensures Sbox(0xc5) == 0xa6 && Sbox(0x3d) == 0x27 && Sbox(0xe8) == 0x9b && Sbox(0x51) == 0xd1
    ensures Xor(MixColumn([0xa6, 0x27, 0x9b, 0xd1]), Word(KEY, 41)) == [0xca, 0x3b, 0x3a, 0xa0]
  {
    hide Xor, Word, MixColumn;
    Words5();
    ColumnIs(0xa6, 0x27, 0x9b, 0xd1);
    XorWord([0x74, 0x8f, 0xc4, 0xf4], [0xbe, 0xb4, 0xfe, 0x54]);
  }

  lemma Column10_2()
    ensures Sbox(0x64) == 0x43 && Sbox(0xf3) == 0x0d && Sbox(0x48) == 0x52 && Sbox(0x47) == 0xa0
    ensures Xor(MixColumn([0x43, 0x0d, 0x52, 0xa0]), Word(KEY, 42)) == [0x70, 0xe9, 0xaa, 0x31]
  {
    hide Xor, Word, MixColumn;
    Words5();
    ColumnIs(0x43, 0x0d, 0x52, 0xa0);
    XorWord([0x63, 0x0f, 0x11, 0xc1], [0x13, 0xe6, 0xbb, 0xf0]);
  }

  lemma Column10_3()
    ensures Sbox(0x2a) == 0xe5 && Sbox(0x82) == 0x13 && Sbox(0x7e) == 0xf3 && Sbox(0x0c) == 0xfe
    ensures Xor(MixColumn([0xe5, 0x13, 0xf3, 0xfe]), Word(KEY, 43)) == [0x3b, 0x52, 0xb5, 0xec]
  {
    hide Xor, Word, MixColumn;
    Words5();
    ColumnIs(0xe5, 0x13, 0xf3, 0xfe);
    XorWord([0xe9, 0x33, 0x12, 0x33], [0xd2, 0x61, 0xa7, 0xdf]);
  }

  lemma State10()
    ensures Rounds(Schedule(KEY, WORDS), 10, PLAINTEXT) == START10.Block()
  {
    hide Sbox, Shift, Sub, Xor, MixColumn, Schedule, Word, Rounds, Columns.Block;
    State9();
    Column10_0();
    Column10_1();
    Column10_2();
    Column10_3();
    Substituted(START9, SHIFTED10);
    RoundIs(10, START9, SHIFTED10, START10);
  }

  lemma Column11_0()
    ensures Sbox(0xc1) == 0x78 && Sbox(0x3b) == 0xe2 && Sbox(0xaa) == 0xac && Sbox(0xec) == 0xce
    ensures Xor(MixColumn([0x78, 0xe2, 0xac, 0xce]), Word(KEY, 44)) == [0x5f, 0x9c, 0x6a, 0xbf]
  {
    hide Xor, Word, MixColumn;
    Words5();
    ColumnIs(0x78, 0xe2, 0xac, 0xce);
    XorWord([0xaf, 0x86, 0x90, 0x41], [0xf0, 0x1a, 0xfa, 0xfe]);
  }

  lemma Column11_1()
    ensures Sbox(0xca) == 0x74 && Sbox(0xe9) == 0x1e && Sbox(0xb5) == 0xd5 && Sbox(0xf6) == 0x42
    ensures Xor(MixColumn([0x74, 0x1e, 0xd5, 0x42]), Word(KEY, 45)) == [0xba, 0xc6, 0x34, 0xaa]
  {
    hide Xor, Word, MixColumn;
    Words5();
    ColumnIs(0x74, 0x1e, 0xd5, 0x42);
    XorWord([0x5d, 0x6e, 0x1d, 0xd3], [0xe7, 0xa8, 0x29, 0x79]);
  }

  lemma Column11_2()
    ensures Sbox(0x70) == 0x51 && Sbox(0x52) == 0x00 && Sbox(0x07) == 0xc5 && Sbox(0xa0) == 0xe0
    ensures Xor(MixColumn([0x51, 0x00, 0xc5, 0xe0]), Word(KEY, 46)) == [0x50, 0x40, 0x9f, 0xa7]
  {
    hide Xor, Word, MixColumn;
    Words5();
    ColumnIs(0x51, 0x00, 0xc5, 0xe0);
    XorWord([0x87, 0xe5, 0xfb, 0xed], [0xd7, 0xa5, 0x64, 0x4a]);
  }

  lemma Column11_3()
    ensures Sbox(0x3b) == 0xe2 && Sbox(0x49) == 0x3b && Sbox(0x3a) == 0x80 && Sbox(0x31) == 0xc7
    ensures Xor(MixColumn([0xe2, 0x3b, 0x80, 0xc7]), Word(KEY, 47)) == [0x66, 0x67, 0x76, 0x53]
  {
    hide Xor, Word, MixColumn;
    Words5();
    ColumnIs(0xe2, 0x3b, 0x80, 0xc7);
    XorWord([0xd5, 0xc8, 0x90, 0x13], [0xb3, 0xaf, 0xe6, 0x40]);
  }

  lemma State11()
    ensures Rounds(Schedule(KEY, WORDS), 11, PLAINTEXT) == START11.Block()
  {
    hide Sbox, Shift, Sub, Xor, MixColumn, Schedule, Word, Rounds, Columns.Block;
    State10();
    Column11_0();
    Column11_1();
    Column11_2();
    Column11_3();
    Substituted(START10, SHIFTED11);
    RoundIs(11, START10, SHIFTED11, START11);
  }

  lemma Column12_0()
    ensures Sbox(0x5f) == 0xcf && Sbox(0xc6) == 0xb4 && Sbox(0x9f) == 0xdb && Sbox(0x53) == 0xed
    ensures Xor(MixColumn([0xcf, 0xb4, 0xdb, 0xed]), Word(KEY, 48)) == [0x51, 0x66, 0x04, 0x95]
  {
    hide Xor, Word, MixColumn;
    Words6();
    ColumnIs(0xcf, 0xb4, 0xdb, 0xed);
    XorWord([0x74, 0x27, 0xfa, 0xe4], [0x25, 0x41, 0xfe, 0x71]);
  }

  lemma Column12_1()
    ensures Sbox(0xba) == 0xf4 && Sbox(0x40) == 0x09 && Sbox(0x76) == 0x38 && Sbox(0xbf) == 0x08
    ensures Xor(MixColumn([0xf4, 0x09, 0x38, 0x08]), Word(KEY, 49)) == [0x43, 0x53, 0x95, 0x03]
  {
    hide Xor, Word, MixColumn;
    Words6();
    ColumnIs(0xf4, 0x09, 0x38, 0x08);
    XorWord([0xd8, 0xa6, 0x95, 0x26], [0x9b, 0xf5, 0x00, 0x25]);
  }

  lemma Column12_2()
    ensures Sbox(0x50) == 0x53 && Sbox(0x67) == 0x85 && Sbox(0x6a) == 0x02 && Sbox(0xaa) == 0xac
    ensures Xor(MixColumn([0x53, 0x85, 0x02, 0xac]), Word(KEY, 50)) == [0x14, 0xfb, 0x86, 0xe4]
  {
    hide Xor, Word, MixColumn;
    Words6();
    ColumnIs(0x53, 0x85, 0x02, 0xac);
    XorWord([0x9c, 0xe8, 0x3d, 0x31], [0x88, 0x13, 0xbb, 0xd5]);
  }

  lemma Column12_3()
    ensures Sbox(0x66) == 0x33 && Sbox(0x9c) == 0xde && Sbox(0x34) == 0x18 && Sbox(0xa7) == 0x5c
    ensures Xor(MixColumn([0x33, 0xde, 0x18, 0x5c]), Word(KEY, 51)) == [0x01, 0x92, 0x25, 0x21]
  {
    hide Xor, Word, MixColumn;
    Words6();
    ColumnIs(0x33, 0xde, 0x18, 0x5c);
    XorWord([0x5b, 0xe0, 0x39, 0x2b], [0x5a, 0x72, 0x1c, 0x0a]);
  }

  lemma State12()
    ensures Rounds(Schedule(KEY, WORDS), 12, PLAINTEXT) == START12.Block()
  {
    hide Sbox, Shift, Sub, Xor, MixColumn, Schedule, Word, Rounds, Columns.Block;
    State11();
    Column12_0();
    Column12_1();
    Column12_2();
    Column12_3();
    Substituted(START11, SHIFTED12);
    RoundIs(12, START11, SHIFTED12, START12);
  }

  lemma Column13_0()
    ensures Sbox(0x51) == 0xd1 && Sbox(0x53) == 0xed && Sbox(0x86) == 0x44 && Sbox(0x21) == 0xfd
    ensures Xor(MixColumn([0xd1, 0xed, 0x44, 0xfd]), Word(KEY, 52)) == [0x62, 0x7b, 0xce, 0xb9]
  {
    hide Xor, Word, MixColumn;
    Words6();
    ColumnIs(0xd1, 0xed, 0x44, 0xfd);
    XorWord([0x2c, 0x21, 0xa8, 0x20], [0x4e, 0x5a, 0x66, 0x99]);
  }

  lemma Column13_1()
    ensures Sbox(0x43) == 0x1a && Sbox(0xfb) == 0x0f && Sbox(0x25) == 0x3f && Sbox(0x95) == 0x2a
    ensures Xor(MixColumn([0x1a, 0x0f, 0x3f, 0x2a]), Word(KEY, 53)) == [0x99, 0x9d, 0x5a, 0xaa]
  {
    hide Xor, Word, MixColumn;
    Words6();
    ColumnIs(0x1a, 0x0f, 0x3f, 0x2a);
    XorWord([0x30, 0x6f, 0x15, 0x4a], [0xa9, 0xf2, 0x4f, 0xe0]);
  }

  lemma Column13_2()
    ensures Sbox(0x14) == 0xfa && Sbox(0x92) == 0x4f && Sbox(0x04) == 0xf2 && Sbox(0x03) == 0x7b
    ensures Xor(MixColumn([0xfa, 0x4f, 0xf2, 0x7b]), Word(KEY, 54)) == [0xc9, 0x45, 0xec, 0xf4]
  {
    hide Xor, Word, MixColumn;
    Words6();
    ColumnIs(0xfa, 0x4f, 0xf2, 0x7b);
    XorWord([0xb7, 0x12, 0xc7, 0x5e], [0x7e, 0x57, 0x2b, 0xaa]);
  }

  lemma Column13_3()
    ensures Sbox(0x01) == 0x7c && Sbox(0x66) == 0x33 && Sbox(0x95) == 0x2a && Sbox(0xe4) == 0x69
    ensures Xor(MixColumn([0x7c, 0x33, 0x2a, 0x69]), Word(KEY, 55)) == [0x23, 0xf5, 0x6d, 0xa5]
  {
    hide Xor, Word, MixColumn;
    Words6();
    ColumnIs(0x7c, 0x33, 0x2a, 0x69);
    XorWord([0xee, 0x0d, 0xa0, 0x4f], [0xcd, 0xf8, 0xcd, 0xea]);
  }

  lemma State13()
    ensures Rounds(Schedule(KEY, WORDS), 13, PLAINTEXT) == START13.Block()
  {
    hide Sbox, Shift, Sub, Xor, MixColumn, Schedule, Word, Rounds, Columns.Block;
    State12();
    Column13_0();
    Column13_1();
    Column13_2();
    Column13_3();
    Substituted(START12, SHIFTED13);
    RoundIs(13, START12, SHIFTED13, START13);
  }

  lemma Column14_0()
    ensures Sbox(0x62) == 0xaa && Sbox(0x9d) == 0x5e && Sbox(0xec) == 0xce && Sbox(0xa5) == 0x06
    ensures Xor([0xaa, 0x5e, 0xce, 0x06], Word(KEY, 56)) == [0x8e, 0xa2, 0xb7, 0xca]
  {
    hide Xor, Word, MixColumn;
    Words7();
    XorWord([0xaa, 0x5e, 0xce, 0x06], [0x24, 0xfc, 0x79, 0xcc]);
  }

  lemma Column14_1()
    ensures Sbox(0x99) == 0xee && Sbox(0x45) == 0x6e && Sbox(0x6d) == 0x3c && Sbox(0xb9) == 0x56
    ensures Xor([0xee, 0x6e, 0x3c, 0x56], Word(KEY, 57)) == [0x51, 0x67, 0x45, 0xbf]
  {
    hide Xor, Word, MixColumn;
    Words7();
    XorWord([0xee, 0x6e, 0x3c, 0x56], [0xbf, 0x09, 0x79, 0xe9]);
  }

  lemma Column14_2()
    ensures Sbox(0xc9) == 0xdd && Sbox(0xf5) == 0xe6 && Sbox(0xce) == 0x8b && Sbox(0xaa) == 0xac
    ensures Xor([0xdd, 0xe6, 0x8b, 0xac], Word(KEY, 58)) == [0xea, 0xfc, 0x49, 0x90]
  {
    hide Xor, Word, MixColumn;
    Words7();
    XorWord([0xdd, 0xe6, 0x8b, 0xac], [0x37, 0x1a, 0xc2, 0x3c]);
  }

  lemma Column14_3()
    ensures Sbox(0x23) == 0x26 && Sbox(0x7b) == 0x21 && Sbox(0x5a) == 0xbe && Sbox(0xf4) == 0xbf
    ensures Xor([0x26, 0x21, 0xbe, 0xbf], Word(KEY, 59)) == [0x4b, 0x49, 0x60, 0x89]
  {
    hide Xor, Word, MixColumn;
    Words7();
    XorWord([0x26, 0x21, 0xbe, 0xbf], [0x6d, 0x68, 0xde, 0x36]);
  }

  /** Appendix C.3 of FIPS 197. */
  lemma KnownAnswer()
    ensures IsRoundKeys(Schedule(KEY, WORDS))
    ensures Encrypt(Schedule(KEY, WORDS), PLAINTEXT) == CIPHERTEXT
    ensures Decrypt(Schedule(KEY, WORDS), CIPHERTEXT) == PLAINTEXT
  {
    hide Sbox, Shift, Sub, Xor, RoundKey, Schedule, Word, Rounds, Decrypt;
    Wanted();
    State13();
    Column14_0();
    Column14_1();
    Column14_2();
    Column14_3();
    Substituted(START13, SHIFTED14);
    RoundKeyIsWords(KEY, 14);
    XorColumns(SHIFTED14, Columns(Word(KEY, 56), Word(KEY, 57), Word(KEY, 58), Word(KEY, 59)));
    DecryptUndoesEncrypt(Schedule(KEY, WORDS), PLAINTEXT);
  }

}