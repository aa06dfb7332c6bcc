/**
 * The writer's side of the RITE format: encoders for instructions, instruction
 * streams, literal pools and symbol tables, and the round-trip lemmas saying that
 * the loader reads back exactly what was written.
 */
module RoundTrip {
  import opened Base
  import opened Wire
  import opened Opcodes
  import opened Mrb
  import opened Format

  /**
   * The bytes s sit in bin at offset p, stated byte by byte so that a long
   * concatenation written at p is taken apart one piece at a time.
   */
  predicate IsAt(bin: seq<byte>, p: nat, s: seq<byte>)
    decreases |s|
  {
    p + |s| <= |bin| && (s != [] ==> bin[p] == s[0] && IsAt(bin, p + 1, s[1..]))
  }

  lemma {:induction false} IsAtSlice(bin: seq<byte>, p: nat, s: seq<byte>)
    requires IsAt(bin, p, s)
    ensures p + |s| <= |bin| && bin[p..p + |s|] == s
    decreases |s|
  {
    if s != [] {
      IsAtSlice(bin, p + 1, s[1..]);
      assert bin[p..p + |s|] == [bin[p]] + bin[p + 1..p + 1 + |s[1..]|];
    }
  }

  lemma {:induction false} SliceIsAt(bin: seq<byte>, p: nat, s: seq<byte>)
    requires p + |s| <= |bin| && bin[p..p + |s|] == s
    ensures IsAt(bin, p, s)
    decreases |s|
  {
    if s != [] {
      assert bin[p + 1..p + 1 + |s[1..]|] == s[1..];
      SliceIsAt(bin, p + 1, s[1..]);
    }
  }

  lemma {:induction false} IsAtSplit(bin: seq<byte>, p: nat, a: seq<byte>, b: seq<byte>)
    requires IsAt(bin, p, a + b)
    ensures IsAt(bin, p, a) && IsAt(bin, p + |a|, b)
    decreases |a|
  {
    if a != [] {
      assert (a + b)[1..] == a[1..] + b;
      IsAtSplit(bin, p + 1, a[1..], b);
    } else {
      assert a + b == b;
    }
  }

  // ---------------------------------------------------------------------------
  // Instructions

  /** Operands that the shape can carry: 8-bit and 16-bit fields in range, absent ones 0. */
  predicate Fits(s: Shape, a: nat, b: nat, c: nat)
  {
    match s
    case Z => a == 0 && b == 0 && c == 0
    case B => a < 0x100 && b == 0 && c == 0
    case BB => a < 0x100 && b < 0x100 && c == 0
    case BBB => a < 0x100 && b < 0x100 && c < 0x100
    case BS => a < 0x100 && b < 0x1_0000 && c == 0
    case BSS => a < 0x100 && b < 0x1_0000 && c < 0x1_0000
    case W => a < 0x1_0000 && b == 0 && c == 0
    case S => false
  }

  /** An instruction the writer can encode: decodable shape, operands in range. */
  predicate WellFormedInstr(i: Instr)
  {
    Fits(ShapeOf(i.op), i.a, i.b, i.c)
  }

  /** The operand bytes of a shape, multi-byte fields big-endian. */
  function OperandBytes(s: Shape, a: nat, b: nat, c: nat): (r: seq<byte>)
    requires Fits(s, a, b, c)
    ensures OperandWidth(s) == Some(|r|)
  {
    match s
    case Z => []
    case B => [a as byte]
    case BB => [a as byte, b as byte]
    case BBB => [a as byte, b as byte, c as byte]
    case BS => [a as byte] + BE16Bytes(b)
    case BSS => [a as byte] + BE16Bytes(b) + BE16Bytes(c)
    case W => BE16Bytes(a)
  }

  /** The opcode byte followed by the operand bytes. */
  function EncodeInstr(i: Instr): (r: seq<byte>)
    requires WellFormedInstr(i)
    ensures |r| == InstrSize(i) >= 1
  {
    [Code(i.op) as byte] + OperandBytes(ShapeOf(i.op), i.a, i.b, i.c)
  }

  /** Decoding the operand bytes of a shape gives back the operands written. */
  lemma DecodeOperandBytes(s: Shape, a: nat, b: nat, c: nat)
    requires Fits(s, a, b, c)
    ensures DecodeOperands(s, OperandBytes(s, a, b, c)) == (a, b, c)
  {
    var x := OperandBytes(s, a, b, c);
    match s
    case BS =>
      assert x[1..3] == BE16Bytes(b);
    case BSS =>
      assert x[1..3] == BE16Bytes(b) && x[3..5] == BE16Bytes(c);
    case W =>
      assert x[..2] == BE16Bytes(a);
    case _ =>
  }

  /**
   * Decoding an encoded instruction yields that instruction, and the cursor
   * advances by exactly 1 + the shape's operand width.
   */
  lemma InstrRoundTrip(bin: seq<byte>, p: nat, i: Instr)
    requires WellFormedInstr(i) && IsAt(bin, p, EncodeInstr(i))
    ensures Yields(InstrAt(bin, p), i, p + InstrSize(i))
  {
    var x := OperandBytes(ShapeOf(i.op), i.a, i.b, i.c);
    IsAtSplit(bin, p, [Code(i.op) as byte], x);
    IsAtSlice(bin, p, [Code(i.op) as byte]);
    IsAtSlice(bin, p + 1, x);
    assert Take(bin, p, 1) == Ok([Code(i.op) as byte]);
    CodeLookup(i.op);
    assert Take(bin, p + 1, |x|) == Ok(x);
    DecodeOperandBytes(ShapeOf(i.op), i.a, i.b, i.c);
  }

  /** Every instruction of a stream is well formed. */
  predicate AllWellFormedInstrs(ins: seq<Instr>)
  {
    ins != [] ==> WellFormedInstr(ins[0]) && AllWellFormedInstrs(ins[1..])
  }

  /** An instruction stream, one instruction after another. */
  function EncodeIseq(ins: seq<Instr>): seq<byte>
    requires AllWellFormedInstrs(ins)
  {
    if ins == [] then [] else EncodeInstr(ins[0]) + EncodeIseq(ins[1..])
  }

  /** The first instruction of an encoded stream, and the rest after it. */
  lemma IseqSplit(bin: seq<byte>, p: nat, ins: seq<Instr>)
    requires ins != [] && AllWellFormedInstrs(ins) && IsAt(bin, p, EncodeIseq(ins))
    ensures IsAt(bin, p, EncodeInstr(ins[0]))
    ensures IsAt(bin, p + InstrSize(ins[0]), EncodeIseq(ins[1..]))
    ensures |EncodeIseq(ins)| == InstrSize(ins[0]) + |EncodeIseq(ins[1..])|
  {
    IsAtSplit(bin, p, EncodeInstr(ins[0]), EncodeIseq(ins[1..]));
  }

  /**
   * An encoded stream entered at p, with ilen covering exactly the rest of it, is
   * decoded back instruction for instruction.
   */
  lemma {:induction false} IseqRoundTrip(bin: seq<byte>, start: nat, p: nat, ilen: nat, ins: seq<Instr>)
    requires AllWellFormedInstrs(ins)
    requires start <= p && IsAt(bin, p, EncodeIseq(ins))
    requires ilen == p - start + |EncodeIseq(ins)|
    ensures Yields(IseqsAt(bin, start, p, ilen), ins, p + |EncodeIseq(ins)|)
    decreases |ins|
  {
    if ins != [] {
      IseqSplit(bin, p, ins);
      IseqRoundTrip(bin, start, p + InstrSize(ins[0]), ilen, ins[1..]);
      IseqJoin(bin, start, p, ilen, ins, p + |EncodeIseq(ins)|);
    }
  }

  /** The first instruction read back, in front of the rest read back. */
  lemma IseqJoin(bin: seq<byte>, start: nat, p: nat, ilen: nat, ins: seq<Instr>, e: nat)
    requires ins != [] && WellFormedInstr(ins[0]) && IsAt(bin, p, EncodeInstr(ins[0]))
    requires start <= p && p - start < ilen && p + InstrSize(ins[0]) <= |bin|
    requires Yields(IseqsAt(bin, start, p + InstrSize(ins[0]), ilen), ins[1..], e)
    ensures Yields(IseqsAt(bin, start, p, ilen), ins, e)
  {
    InstrRoundTrip(bin, p, ins[0]);
    IseqsAtCons(bin, start, p, ilen, ins[0], p + InstrSize(ins[0]), ins[1..], e);
    assert [ins[0]] + ins[1..] == ins;
  }

  // ---------------------------------------------------------------------------
  // Literal pool and symbol table

  /** A string that fits a pool entry or a symbol: NUL-free bytes, 16-bit length. */
  predicate Writable(s: string)
  {
    Encodable(s) && |s| < 0x1_0000
  }

  /** A pool entry: tag 0, length, the bytes, a terminator. */
  function EncodeLiteral(s: string): seq<byte>
    requires Writable(s)
  {
    [0] + BE16Bytes(|s|) + StrBytes(s) + [0]
  }

  lemma LiteralRoundTrip(bin: seq<byte>, p: nat, s: string)
    requires Writable(s) && IsAt(bin, p, EncodeLiteral(s))
    ensures Yields(LiteralAt(bin, p), s, p + |EncodeLiteral(s)|)
  {
    var h := [0 as byte] + BE16Bytes(|s|);
    assert EncodeLiteral(s) == h + StrBytes(s) + [0];
    IsAtSplit(bin, p, h + StrBytes(s), [0]);
    IsAtSplit(bin, p, h, StrBytes(s));
    IsAtSlice(bin, p, h);
    IsAtSlice(bin, p + 3, StrBytes(s));
    assert Take(bin, p, 3) == Ok(h);
    assert h[1..3] == BE16Bytes(|s|);
    assert Take(bin, p + 3, |s|) == Ok(StrBytes(s));
    ZStringOfStrBytes(s);
  }

  /** Every string of a list is writable. */
  predicate AllWritable(ls: seq<string>)
  {
    ls != [] ==> Writable(ls[0]) && AllWritable(ls[1..])
  }

  function EncodeLiterals(ls: seq<string>): seq<byte>
    requires AllWritable(ls)
  {
    if ls == [] then [] else EncodeLiteral(ls[0]) + EncodeLiterals(ls[1..])
  }

  /** The first entry of an encoded list, and the rest after it. */
  lemma LiteralsSplit(bin: seq<byte>, p: nat, ls: seq<string>)
    requires ls != [] && AllWritable(ls) && IsAt(bin, p, EncodeLiterals(ls))
    ensures IsAt(bin, p, EncodeLiteral(ls[0]))
    ensures IsAt(bin, p + |EncodeLiteral(ls[0])|, EncodeLiterals(ls[1..]))
    ensures |EncodeLiterals(ls)| == |EncodeLiteral(ls[0])| + |EncodeLiterals(ls[1..])|
  {
    IsAtSplit(bin, p, EncodeLiteral(ls[0]), EncodeLiterals(ls[1..]));
  }

  lemma {:induction false} LiteralsRoundTrip(bin: seq<byte>, p: nat, ls: seq<string>)
    requires AllWritable(ls)
    requires IsAt(bin, p, EncodeLiterals(ls))
    ensures Yields(LiteralsAt(bin, p, |ls|), ls, p + |EncodeLiterals(ls)|)
    decreases |ls|
  {
    if ls != [] {
      LiteralsSplit(bin, p, ls);
      LiteralsRoundTrip(bin, p + |EncodeLiteral(ls[0])|, ls[1..]);
      LiteralsJoin(bin, p, ls, p + |EncodeLiterals(ls)|);
    }
  }

  /** The first entry read back, in front of the rest read back. */
  lemma LiteralsJoin(bin: seq<byte>, p: nat, ls: seq<string>, e: nat)
    requires ls != [] && Writable(ls[0]) && IsAt(bin, p, EncodeLiteral(ls[0]))
    requires Yields(LiteralsAt(bin, p + |EncodeLiteral(ls[0])|, |ls[1..]|), ls[1..], e)
    ensures Yields(LiteralsAt(bin, p, |ls|), ls, e)
  {
    LiteralRoundTrip(bin, p, ls[0]);
    LiteralsAtCons(bin, p, |ls|, |ls[1..]|, ls[0], p + |EncodeLiteral(ls[0])|, ls[1..], e);
    assert [ls[0]] + ls[1..] == ls;
  }

  /** A pool the writer can encode. */
  predicate WritablePool(ls: seq<string>)
  {
    |ls| < 0x1_0000 && AllWritable(ls)
  }

  /** The pool block: count, then the entries. */
  function EncodePool(ls: seq<string>): seq<byte>
    requires WritablePool(ls)
  {
    BE16Bytes(|ls|) + EncodeLiterals(ls)
  }

  lemma PoolRoundTrip(bin: seq<byte>, p: nat, ls: seq<string>)
    requires WritablePool(ls) && IsAt(bin, p, EncodePool(ls))
    ensures Yields(PoolAt(bin, p), ls, p + |EncodePool(ls)|)
  {
    IsAtSplit(bin, p, BE16Bytes(|ls|), EncodeLiterals(ls));
    IsAtSlice(bin, p, BE16Bytes(|ls|));
    assert Take(bin, p, 2) == Ok(BE16Bytes(|ls|));
    LiteralsRoundTrip(bin, p + 2, ls);
  }

  /** A symbol: length, the bytes, a terminator. */
  function EncodeSymbol(s: string): seq<byte>
    requires Writable(s)
  {
    BE16Bytes(|s|) + StrBytes(s) + [0]
  }

  lemma SymbolRoundTrip(bin: seq<byte>, p: nat, s: string)
    requires Writable(s) && IsAt(bin, p, EncodeSymbol(s))
    ensures Yields(SymbolAt(bin, p), s, p + |EncodeSymbol(s)|)
  {
    IsAtSplit(bin, p, BE16Bytes(|s|) + StrBytes(s), [0]);
    IsAtSplit(bin, p, BE16Bytes(|s|), StrBytes(s));
    IsAtSlice(bin, p, BE16Bytes(|s|));
    IsAtSlice(bin, p + 2, StrBytes(s));
    assert Take(bin, p, 2) == Ok(BE16Bytes(|s|));
    assert Take(bin, p + 2, |s|) == Ok(StrBytes(s));
    ZStringOfStrBytes(s);
  }

  function EncodeSymbols(ss: seq<string>): seq<byte>
    requires AllWritable(ss)
  {
    if ss == [] then [] else EncodeSymbol(ss[0]) + EncodeSymbols(ss[1..])
  }

  /** The first symbol of an encoded list, and the rest after it. */
  lemma SymbolsSplit(bin: seq<byte>, p: nat, ss: seq<string>)
    requires ss != [] && AllWritable(ss) && IsAt(bin, p, EncodeSymbols(ss))
    ensures IsAt(bin, p, EncodeSymbol(ss[0]))
    ensures IsAt(bin, p + |EncodeSymbol(ss[0])|, EncodeSymbols(ss[1..]))
    ensures |EncodeSymbols(ss)| == |EncodeSymbol(ss[0])| + |EncodeSymbols(ss[1..])|
  {
    IsAtSplit(bin, p, EncodeSymbol(ss[0]), EncodeSymbols(ss[1..]));
  }

  lemma {:induction false} SymbolsRoundTrip(bin: seq<byte>, p: nat, ss: seq<string>)
    requires AllWritable(ss)
    requires IsAt(bin, p, EncodeSymbols(ss))
    ensures Yields(SymbolsAt(bin, p, |ss|), ss, p + |EncodeSymbols(ss)|)
    decreases |ss|
  {
    if ss != [] {
      SymbolsSplit(bin, p, ss);
      SymbolsRoundTrip(bin, p + |EncodeSymbol(ss[0])|, ss[1..]);
      SymbolsJoin(bin, p, ss, p + |EncodeSymbols(ss)|);
    }
  }

  /** The first symbol read back, in front of the rest read back. */
  lemma SymbolsJoin(bin: seq<byte>, p: nat, ss: seq<string>, e: nat)
    requires ss != [] && Writable(ss[0]) && IsAt(bin, p, EncodeSymbol(ss[0]))
    requires Yields(SymbolsAt(bin, p + |EncodeSymbol(ss[0])|, |ss[1..]|), ss[1..], e)
    ensures Yields(SymbolsAt(bin, p, |ss|), ss, e)
  {
    SymbolRoundTrip(bin, p, ss[0]);
    SymbolsAtCons(bin, p, |ss|, |ss[1..]|, ss[0], p + |EncodeSymbol(ss[0])|, ss[1..], e);
    assert [ss[0]] + ss[1..] == ss;
  }

  /** The symbol block: count, then the symbols. */
  function EncodeSyms(ss: seq<string>): seq<byte>
    requires WritablePool(ss)
  {
    BE16Bytes(|ss|) + EncodeSymbols(ss)
  }

  lemma SymsRoundTrip(bin: seq<byte>, p: nat, ss: seq<string>)
    requires WritablePool(ss) && IsAt(bin, p, EncodeSyms(ss))
    ensures Yields(SymsAt(bin, p), ss, p + |EncodeSyms(ss)|)
  {
    IsAtSplit(bin, p, BE16Bytes(|ss|), EncodeSymbols(ss));
    IsAtSlice(bin, p, BE16Bytes(|ss|));
    assert Take(bin, p, 2) == Ok(BE16Bytes(|ss|));
    SymbolsRoundTrip(bin, p + 2, ss);
  }

  // ---------------------------------------------------------------------------
  // The BSS operand group as the loader writes it

  /**
   * `CSS>` reads the middle field of a BSS group in host order, so on a
   * little-endian host LOADI32 with b = 1 (written big-endian as 00 01) is read
   * back as 256.
   */
  lemma BssAsWrittenMisreads()
    ensures BssOperandsAsWritten(OperandBytes(BSS, 0, 1, 0)) == (0, 256, 0)
    ensures BssOperands(OperandBytes(BSS, 0, 1, 0)) == (0, 1, 0)
  {
    assert OperandBytes(BSS, 0, 1, 0) == [0, 0, 1, 0, 0];
    assert [0 as byte, 0, 1, 0, 0][1..3] == [0, 1];
    assert [0 as byte, 0, 1, 0, 0][3..5] == [0, 0];
  }

  /** The corrected, all-big-endian reading returns every BSS operand group as written. */
  lemma BssRoundTrip(a: nat, b: nat, c: nat)
    requires Fits(BSS, a, b, c)
    ensures BssOperands(OperandBytes(BSS, a, b, c)) == (a, b, c)
  {
    DecodeOperandBytes(BSS, a, b, c);
  }
}
