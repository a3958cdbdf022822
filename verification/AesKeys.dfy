/** `KeyExpansion` and `AES_init_ctx` of `aes.cpp`: sixty words of round keys from a key of eight. */
module AesKeys {
  import opened AesTables
  import opened AesField
  import opened AesBlocks

  const NK := 8
  const WORDS := 60

  /** The table of round constants. */
  function Rcon(i: nat): bv8
    requires i < 11
  {
    [0x8d, 0x01, 0x02, 0x04, 0x08, 0x10, 0x20, 0x40, 0x80, 0x1b, 0x36][i]
  }

  /** The powers of x: constant `i` of section 5.2 of FIPS 197 is power `i - 1`. */
  function Power(i: nat): bv8 {
    if i == 0 then 1 else Xtime(Power(i - 1))
  }

  lemma PowersBelow(x: bv8)
    ensures Xtime(0x01) == 0x02 && Xtime(0x02) == 0x04 && Xtime(0x04) == 0x08 && Xtime(0x08) == 0x10
    ensures Xtime(0x10) == 0x20
    ensures Xtime(0x20) == 0x40 && Xtime(0x40) == 0x80 && Xtime(0x80) == 0x1b && Xtime(0x1b) == 0x36
  {
  }

  /** The table holds the powers of x. */
  lemma {:induction false} RconIsPower(i: nat)
    requires 1 <= i < 11
    ensures Rcon(i) == Power(i - 1)
  {
    hide Xtime;
    PowersBelow(0);
    if i > 1 {
      RconIsPower(i - 1);
    }
  }

  function RotWord(w: seq<bv8>): (r: seq<bv8>)
    requires |w| == 4
    ensures |r| == 4
  {
    w[1..] + [w[0]]
  }

  /** What is added to the word eight places back (section 5.2 of FIPS 197). */
  function Temp(previous: seq<bv8>, i: nat): (r: seq<bv8>)
    requires |previous| == 4 && 0 < i < WORDS
    ensures |r| == 4
  {
    hide Sbox, Xtime;
    if i % NK == 0 then Xor(Sub(RotWord(previous)), [Power(i / NK - 1), 0, 0, 0])
    else if i % NK == 4 then Sub(previous)
    else previous
  }

  /** Word `i` of the key schedule. */
  function Word(key: seq<bv8>, i: nat): (r: seq<bv8>)
    requires |key| == 4 * NK && i < WORDS
    ensures |r| == 4
  {
    hide Temp;
    if i < NK then key[4 * i..4 * i + 4]
    else Xor(Word(key, i - NK), Temp(Word(key, i - 1), i))
  }

  function Schedule(key: seq<bv8>, n: nat): (r: seq<bv8>)
    requires |key| == 4 * NK && n <= WORDS
    ensures |r| == 4 * n
  {
    hide Word;
    if n == 0 then [] else Schedule(key, n - 1) + Word(key, n - 1)
  }

  lemma {:induction false} ScheduleAt(key: seq<bv8>, n: nat, i: nat)
    requires |key| == 4 * NK && i < n <= WORDS
    ensures Schedule(key, n)[4 * i..4 * i + 4] == Word(key, i)
  {
    hide Word;
    if i < n - 1 {
      ScheduleAt(key, n - 1, i);
      assert Schedule(key, n)[4 * i..4 * i + 4] == Schedule(key, n - 1)[4 * i..4 * i + 4];
    }
  }

  lemma WordStarts(key: seq<bv8>, i: nat)
    requires |key| == 4 * NK && i < NK
    ensures Word(key, i) == key[4 * i..4 * i + 4]
  {
    hide Temp;
  }

  /** The round keys begin with the key itself. */
  lemma {:induction false} ScheduleStarts(key: seq<bv8>, n: nat)
    requires |key| == 4 * NK && n <= NK
    ensures Schedule(key, n) == key[..4 * n]
  {
    hide Word;
    if n > 0 {
      WordStarts(key, n - 1);
      ScheduleStarts(key, n - 1);
    }
  }

  lemma SubOf(w: seq<bv8>)
    requires |w| == 4
    ensures Sub(w) == [Sbox(w[0]), Sbox(w[1]), Sbox(w[2]), Sbox(w[3])]
  {
    hide Sbox;
  }

  lemma TempFirst(q: seq<bv8>, i: nat)
    requires |q| == 4 && 0 < i < WORDS && i % 8 == 0
    ensures Temp(q, i) == [Sbox(q[1]) ^ Rcon(i / 8), Sbox(q[2]), Sbox(q[3]), Sbox(q[0])]
  {
    hide Sbox, Xtime, Rcon, Power, Xor, Sub;
    RconIsPower(i / 8);
    var r := RotWord(q);
    assert r == [q[1], q[2], q[3], q[0]];
    SubOf(r);
    WithConstant(Sub(r), Rcon(i / 8));
  }

  lemma TempIs(q: seq<bv8>, i: nat)
    requires |q| == 4 && 0 < i < WORDS
    ensures i % 8 == 0 ==> Temp(q, i) == [Sbox(q[1]) ^ Rcon(i / 8), Sbox(q[2]), Sbox(q[3]), Sbox(q[0])]
    ensures i % 8 == 4 ==> Temp(q, i) == [Sbox(q[0]), Sbox(q[1]), Sbox(q[2]), Sbox(q[3])]
    ensures i % 4 != 0 ==> Temp(q, i) == q
  {
    hide Sbox, Xtime, Rcon, Power, Xor, Sub, RotWord;
    if i % 8 == 0 {
      TempFirst(q, i);
    }
    SubOf(q);
  }

  /** The recurrence of section 5.2 of FIPS 197. */
  lemma WordRecurrence(key: seq<bv8>, i: nat)
    requires |key| == 4 * NK && NK <= i < WORDS
    ensures var p, q := Word(key, i - 8), Word(key, i - 1);
            Word(key, i)
            == Xor(p, if i % 8 == 0 then [Sbox(q[1]) ^ Rcon(i / 8), Sbox(q[2]), Sbox(q[3]), Sbox(q[0])]
                      else if i % 8 == 4 then [Sbox(q[0]), Sbox(q[1]), Sbox(q[2]), Sbox(q[3])]
                      else q)
  {
    hide Sbox, Xtime, Rcon, Temp, Xor;
    TempIs(Word(key, i - 1), i);
  }

  /** The schedule is its words, one after the other: byte `b` of word `i` is byte `4 * i + b`. */
  lemma ScheduleWord(key: seq<bv8>, i: nat, b: nat)
    requires |key| == 4 * NK && i < WORDS && b < 4
    ensures Schedule(key, WORDS)[4 * i + b] == Word(key, i)[b]
  {
    hide Word, Schedule;
    ScheduleAt(key, WORDS, i);
    assert Schedule(key, WORDS)[4 * i + b] == Schedule(key, WORDS)[4 * i..4 * i + 4][b];
  }

  /** Round key `round` is four words of the schedule, from word `4 * round` on. */
  lemma RoundKeyIsWords(key: seq<bv8>, round: nat)
    requires |key| == 4 * NK && round <= ROUNDS
    ensures IsRoundKeys(Schedule(key, WORDS))
    ensures RoundKey(Schedule(key, WORDS), round)
         == Word(key, 4 * round) + Word(key, 4 * round + 1) + Word(key, 4 * round + 2) + Word(key, 4 * round + 3)
  {
    hide Word, Schedule;
    ScheduleAt(key, WORDS, 4 * round);
    ScheduleAt(key, WORDS, 4 * round + 1);
    ScheduleAt(key, WORDS, 4 * round + 2);
    ScheduleAt(key, WORDS, 4 * round + 3);
  }

  /** Word `i`, from the bytes already in the buffer. */
  method NextWord(roundKey: array<bv8>, i: nat) returns (tempa: array<bv8>)
    requires NK <= i < WORDS && roundKey.Length == 4 * WORDS
    ensures fresh(tempa) && tempa.Length == 4 && tempa[..] == Temp(roundKey[..4 * i][4 * i - 4..4 * i], i)
  {
    hide Sbox, Xtime, Rcon, Power, RotWord, Sub, Xor;
    var k := (i - 1) * 4;
    ghost var previous := roundKey[..4 * i][4 * i - 4..4 * i];
    tempa := new bv8[4];
    tempa[0] := roundKey[k + 0];
    tempa[1] := roundKey[k + 1];
    tempa[2] := roundKey[k + 2];
    tempa[3] := roundKey[k + 3];
    assert tempa[..] == previous;
    if i % NK == 0 {
      Rotate(tempa);
      SubWord(tempa);
      RconIsPower(i / NK);
      WithConstant(tempa[..], Rcon(i / NK));
      tempa[0] := tempa[0] ^ Rcon(i / NK);
    }
    if i % NK == 4 {
      SubWord(tempa);
    }
  }

  lemma WithConstant(w: seq<bv8>, c: bv8)
    requires |w| == 4
    ensures Xor(w, [c, 0, 0, 0]) == w[0 := w[0] ^ c]
  {
  }

  method Rotate(tempa: array<bv8>)
    requires tempa.Length == 4
    modifies tempa
    ensures tempa[..] == RotWord(old(tempa[..]))
  {
    var u8tmp := tempa[0];
    tempa[0] := tempa[1];
    tempa[1] := tempa[2];
    tempa[2] := tempa[3];
    tempa[3] := u8tmp;
  }

  method SubWord(tempa: array<bv8>)
    requires tempa.Length == 4
    modifies tempa
    ensures tempa[..] == Sub(old(tempa[..]))
  {
    hide Sbox;
    tempa[0] := Sbox(tempa[0]);
    tempa[1] := Sbox(tempa[1]);
    tempa[2] := Sbox(tempa[2]);
    tempa[3] := Sbox(tempa[3]);
  }

  method KeyExpansion(roundKey: array<bv8>, key: seq<bv8>)
    requires roundKey.Length == 4 * WORDS && |key| == 4 * NK
    modifies roundKey
    ensures roundKey[..] == Schedule(key, WORDS) && IsRoundKeys(roundKey[..])
  {
    hide Sbox, Xtime, Word, Temp, Xor, Schedule, Add;
    for i := 0 to NK
      invariant forall j :: 0 <= j < 4 * i ==> roundKey[j] == key[j]
    {
      roundKey[i * 4 + 0] := key[i * 4 + 0];
      roundKey[i * 4 + 1] := key[i * 4 + 1];
      roundKey[i * 4 + 2] := key[i * 4 + 2];
      roundKey[i * 4 + 3] := key[i * 4 + 3];
    }
    assert roundKey[..4 * NK] == key[..4 * NK];
    ScheduleStarts(key, NK);
    for i := NK to WORDS
      invariant roundKey[..4 * i] == Schedule(key, i)
    {
      var tempa := NextWord(roundKey, i);
      WordFrom(key, i, roundKey[..4 * i]);
      ghost var sofar := roundKey[..4 * i];
      StoreWord(roundKey, i, tempa);
      XorFrom(sofar, 4 * (i - NK), tempa[..], roundKey[4 * i..4 * i + 4]);
      ScheduleNext(key, i);
      assert roundKey[..4 * (i + 1)] == roundKey[..4 * i] + roundKey[4 * i..4 * i + 4];
    }
  }

  lemma XorWord(a: seq<bv8>, b: seq<bv8>)
    requires |a| == |b| == 4
    ensures Xor(a, b) == [a[0] ^ b[0], a[1] ^ b[1], a[2] ^ b[2], a[3] ^ b[3]]
  {
  }

  method StoreWord(roundKey: array<bv8>, i: nat, tempa: array<bv8>)
    requires NK <= i < WORDS && roundKey.Length == 4 * WORDS && tempa.Length == 4 && tempa != roundKey
    modifies roundKey
    ensures roundKey[..4 * i] == old(roundKey[..4 * i])
    ensures forall b :: 0 <= b < 4 ==> roundKey[4 * i + b] == Add(old(roundKey[4 * (i - NK) + b]), tempa[b])
  {
    hide Add;
    var j, k := i * 4, (i - NK) * 4;
    roundKey[j + 0] := Add(roundKey[k + 0], tempa[0]);
    roundKey[j + 1] := Add(roundKey[k + 1], tempa[1]);
    roundKey[j + 2] := Add(roundKey[k + 2], tempa[2]);
    roundKey[j + 3] := Add(roundKey[k + 3], tempa[3]);
  }

  /** Combined byte by byte is combined. */
  lemma XorFrom(s: seq<bv8>, k: nat, t: seq<bv8>, r: seq<bv8>)
    requires k + 4 <= |s| && |t| == |r| == 4 && forall b :: 0 <= b < 4 ==> r[b] == Add(s[k + b], t[b])
    ensures r == Xor(s[k..k + 4], t)
  {
  }

  lemma ScheduleNext(key: seq<bv8>, i: nat)
    requires |key| == 4 * NK && i < WORDS
    ensures Schedule(key, i + 1) == Schedule(key, i) + Word(key, i)
  {
    hide Word;
  }

  /** The words a new one is made of lie in the buffer. */
  lemma WordFrom(key: seq<bv8>, i: nat, sofar: seq<bv8>)
    requires |key| == 4 * NK && NK <= i < WORDS && sofar == Schedule(key, i)
    ensures Word(key, i) == Xor(sofar[4 * (i - NK)..4 * (i - NK) + 4], Temp(sofar[4 * i - 4..4 * i], i))
  {
    hide Temp, Xor, Schedule;
    ScheduleAt(key, i, i - 1);
    ScheduleAt(key, i, i - NK);
  }

  const DEFAULT_KEY: seq<bv8> := [
    0x60, 0x3d, 0xeb, 0x10, 0x15, 0xca, 0x71, 0xbe, 0x2b, 0x73, 0xae, 0xf0, 0x85, 0x7d, 0x77, 0x81,
    0x1f, 0x35, 0x2c, 0x07, 0x3b, 0x61, 0x08, 0xd7, 0x2d, 0x98, 0x10, 0xa3, 0x09, 0x14, 0xdf, 0xf4]

  /** A key of any length: cut, or filled up from the default one. */
  function Fitted(key: seq<bv8>): (r: seq<bv8>)
    ensures |r| == 4 * NK
    ensures forall i :: 0 <= i < 4 * NK ==> r[i] == if i < |key| then key[i] else DEFAULT_KEY[i]
  {
    if |key| >= 4 * NK then key[..4 * NK] else key + DEFAULT_KEY[|key|..]
  }

  /** `AES_init_ctx`. Keys that differ after their first 32 bytes are the same key. */
  method InitContext(key: seq<bv8>) returns (roundKey: array<bv8>)
    ensures fresh(roundKey) && IsRoundKeys(roundKey[..]) && roundKey[..] == Schedule(Fitted(key), WORDS)
  {
    roundKey := new bv8[4 * WORDS];
    KeyExpansion(roundKey, Fitted(key));
  }
}
