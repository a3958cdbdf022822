/** One module file, byte for byte: what the layout amounts to. */
module SmallFile {
  import opened Bytes
  import opened Tensors
  import opened Graphs
  import opened Binio
  import TensorCodec
  import opened BubbleCodec
  import opened NodeTable
  import opened Modules

  const SMALL: Graph := [Record(Bubble("<param>", "x", map[]), []), Record(Bubble("f", "y", map[]), [0])]
  const X: seq<Param> := [("#op", FromString("<param>")), ("#name", FromString("x"))]
  const Y: seq<Param> := [("#op", FromString("f")), ("#name", FromString("y"))]

  const XBYTES: seq<bv8> :=
    [2, 0, 0, 0]
    + ([3, 0, 0, 0, 0x23, 0x6f, 0x70]
       + [1, 0, 0, 0, 13, 1, 0, 0, 0, 7, 0, 0, 0] + [0x3c, 0x70, 0x61, 0x72, 0x61, 0x6d, 0x3e])
    + ([5, 0, 0, 0, 0x23, 0x6e, 0x61, 0x6d, 0x65] + [1, 0, 0, 0, 13, 1, 0, 0, 0, 1, 0, 0, 0] + [0x78])
    + [0, 0, 0, 0]

  const YBYTES: seq<bv8> :=
    [2, 0, 0, 0]
    + ([3, 0, 0, 0, 0x23, 0x6f, 0x70] + [1, 0, 0, 0, 13, 1, 0, 0, 0, 1, 0, 0, 0] + [0x66])
    + ([5, 0, 0, 0, 0x23, 0x6e, 0x61, 0x6d, 0x65] + [1, 0, 0, 0, 13, 1, 0, 0, 0, 1, 0, 0, 0] + [0x79])
    + [1, 0, 0, 0, 0, 0, 0, 0]

  /** The code in the header, low byte first, between a word and thirty words of zeros. */
  lemma HeaderIs()
    ensures HeaderBytes() == [0, 0, 0, 0, 0x29, 0x09, 0x91, 0x19] + seq(120, _ => 0)
  {
    hide U32;
    LittleEndian(0, 0, 0, 0);
    LittleEndian(0x29, 0x09, 0x91, 0x19);
  }

  lemma StringIs(s: string, b: seq<bv8>)
    requires |s| == |b| && forall i :: 0 <= i < |s| ==> s[i] as nat == Number(b[i])
    ensures StringBytes(s) == b
  {
    hide Byte, Number;
    forall i | 0 <= i < |s| ensures CharByte(s[i]) == b[i] {
      ByteOfNumber(b[i]);
    }
  }

  lemma KeyLetters()
    ensures StringBytes("#op") == [0x23, 0x6f, 0x70] && StringBytes("#name") == [0x23, 0x6e, 0x61, 0x6d, 0x65]
  {
    hide StringBytes;
    StringIs("#op", [0x23, 0x6f, 0x70]);
    StringIs("#name", [0x23, 0x6e, 0x61, 0x6d, 0x65]);
  }

  lemma ParamLetters()
    ensures StringBytes("<param>") == [0x3c, 0x70, 0x61, 0x72, 0x61, 0x6d, 0x3e]
  {
    hide StringBytes;
    StringIs("<param>", [0x3c, 0x70, 0x61, 0x72, 0x61, 0x6d, 0x3e]);
  }

  lemma SingleLetters()
    ensures StringBytes("x") == [0x78] && StringBytes("y") == [0x79] && StringBytes("f") == [0x66]
  {
    hide StringBytes;
    StringIs("x", [0x78]);
    StringIs("y", [0x79]);
    StringIs("f", [0x66]);
  }

  lemma TwoParams(p: Param, q: Param)
    ensures ParamsBytes([p, q]) == [2, 0, 0, 0] + ParamBytes(p) + ParamBytes(q)
  {
    hide U32, ParamBytes;
    Small(2);
    SmallBytes();
    assert [p, q][..1] == [p] && [p][..0] == [];
    assert WriteMany(ParamBytes, [p]) == WriteMany(ParamBytes, []) + ParamBytes(p);
  }

  lemma ShortLists()
    ensures ListBytes([]) == [0, 0, 0, 0]
    ensures ListBytes([0]) == [1, 0, 0, 0, 0, 0, 0, 0] && ListBytes([1]) == [1, 0, 0, 0, 1, 0, 0, 0]
  {
    hide U32, Byte;
    Small(0);
    Small(1);
    SmallBytes();
    Extremes();
    forall n: nat ensures WriteMany(U32, [n]) == U32(n) {
      var list: seq<nat> := [n];
      assert list[..0] == [] && WriteMany(U32, list) == WriteMany(U32, []) + U32(n);
    }
  }

  /** A node without parameters of its own: operator, name and inputs. */
  lemma RecordLayout(r: Record, ps: seq<Param>)
    requires |r.bubble.op| < 256 && |r.bubble.name| < 256
    requires ps == [("#op", FromString(r.bubble.op)), ("#name", FromString(r.bubble.name))]
    ensures RecordBytes((r, ps))
         == [2, 0, 0, 0]
            + ([3, 0, 0, 0, 0x23, 0x6f, 0x70]
               + [1, 0, 0, 0, 13, 1, 0, 0, 0, Byte(|r.bubble.op|), 0, 0, 0] + StringBytes(r.bubble.op))
            + ([5, 0, 0, 0, 0x23, 0x6e, 0x61, 0x6d, 0x65]
               + [1, 0, 0, 0, 13, 1, 0, 0, 0, Byte(|r.bubble.name|), 0, 0, 0] + StringBytes(r.bubble.name))
            + ListBytes(r.inputs)
  {
    hide U32, Byte, ParamsBytes, ParamBytes, ListBytes, FromString, StringBytes;
    KeyLetters();
    SmallBytes();
    TwoParams(ps[0], ps[1]);
    assert ps == [ps[0], ps[1]];
    StringParamBytes("#op", r.bubble.op);
    StringParamBytes("#name", r.bubble.name);
  }

  lemma SmallRecords()
    ensures RecordBytes((SMALL[0], X)) == XBYTES && RecordBytes((SMALL[1], Y)) == YBYTES
  {
    hide U32, Byte, RecordBytes, ListBytes, FromString, StringBytes;
    ParamLetters();
    SingleLetters();
    SmallBytes();
    ShortLists();
    RecordLayout(SMALL[0], X);
    RecordLayout(SMALL[1], Y);
  }

  /** Header, inputs, outputs, nodes: the whole file of an operator on a parameter, byte for byte. */
  lemma SmallModule()
    ensures ModuleBytes([0], [1], [(SMALL[0], X), (SMALL[1], Y)])
         == [0, 0, 0, 0, 0x29, 0x09, 0x91, 0x19] + seq(120, _ => 0)
            + [1, 0, 0, 0, 0, 0, 0, 0] + [1, 0, 0, 0, 1, 0, 0, 0] + [2, 0, 0, 0] + XBYTES + YBYTES
  {
    hide HeaderBytes, ListBytes, RecordBytes, U32, Byte;
    HeaderIs();
    ShortLists();
    SmallRecords();
    Small(2);
    SmallBytes();
    var rs: seq<Ordered> := [(SMALL[0], X), (SMALL[1], Y)];
    assert rs[..1] == [rs[0]] && [rs[0]][..0] == [];
    assert WriteMany(RecordBytes, [rs[0]]) == WriteMany(RecordBytes, []) + XBYTES;
    assert TableBytes(rs) == [2, 0, 0, 0] + XBYTES + YBYTES;
  }

  /** Those are the parameters kept of its nodes, in one of the two orders they may be written in. */
  lemma SmallFits()
    ensures OrderedFits((SMALL[0], X)) && OrderedFits((SMALL[1], Y))
  {
    hide InOrder, FromString, BubbleFits;
    RecordFits(SMALL[0], X);
    RecordFits(SMALL[1], Y);
  }

  lemma RecordFits(r: Record, ps: seq<Param>)
    requires r.bubble.params == map[] && Plain(r.bubble.op) && Plain(r.bubble.name)
    requires |r.inputs| <= 1 && forall i :: 0 <= i < |r.inputs| ==> r.inputs[i] < 256
    requires ps == [("#op", FromString(r.bubble.op)), ("#name", FromString(r.bubble.name))]
    ensures OrderedFits((r, ps))
  {
    hide FromString, Plain, TensorCodec.Fits, TensorCodec.Shallow;
    var b := r.bubble;
    var m := Stored(b);
    ToStringBack(b.op);
    ToStringBack(b.name);
    PlainKeys();
    assert m == map["#op" := FromString(b.op), "#name" := FromString(b.name)];
    assert "#op" != "#name" by { assert |"#op"| != |"#name"|; }
    assert Names(ps) == ["#op", "#name"];
    assert m.Keys == {"#op", "#name"} && |m| == |m.Keys|;
    assert ps == Entries(Names(ps), m);
  }

  lemma PlainKeys()
    ensures Plain("#op") && Plain("#name")
  {
  }
}
