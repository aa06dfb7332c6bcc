/**
 * What the RITE loader reads at each position of the input: a pure, position-indexed
 * description of every step of the parser.  Each `...At(bin, p)` function is the value
 * the step decodes from the bytes at offset p together with the offset just after
 * them, or the error that aborts the load.  The imperative parser is proved to
 * agree with these functions.
 */
module Format {
  import opened Base
  import opened Wire
  import opened Opcodes
  import opened Mrb

  /** Why a load is abandoned. */
  datatype ParseError =
    | TruncatedInput(at: nat, wanted: nat)      // fewer than `wanted` bytes remain at `at`
    | NotMrubyBinary                            // the header's identifier is not "RITE"
    | UnsupportedSection(kind: seq<byte>)       // a debug-info section
    | UnknownSection(kind: seq<byte>)           // any other unrecognised section type
    | UnsupportedLiteral(tag: byte)             // a pool entry that is not a string
    | UnknownOpcode(code: byte)                 // an opcode byte with no table entry
    | UnsupportedOperandShape(op: Opcode)       // an opcode whose shape has no decoding case

  /** A decoded value and the offset just after the bytes it came from. */
  type Parsed<T> = Result<(T, nat), ParseError>

  /** The n bytes at offset p, or TruncatedInput when fewer remain. */
  function Take(bin: seq<byte>, p: nat, n: nat): Result<seq<byte>, ParseError>
  {
    if p + n <= |bin| then Ok(bin[p..p + n]) else Err(TruncatedInput(p, n))
  }

  /** A method's result and final cursor agree with a position-indexed description. */
  predicate Agrees<T(==)>(r: Result<T, ParseError>, cur: nat, spec: Parsed<T>)
  {
    match spec
    case Ok(vq) => r == Ok(vq.0) && cur == vq.1
    case Err(e) => r == Err(e)
  }

  /** A slice of the bytes read at p is the same slice of the input, shifted by p. */
  lemma SliceOfTake(bin: seq<byte>, p: nat, n: nat, i: nat, j: nat)
    requires p + n <= |bin| && i <= j <= n
    ensures bin[p..p + n][i..j] == bin[p + i..p + j]
  {
    var s := bin[p..p + n];
    forall k | 0 <= k < j - i
      ensures s[i..j][k] == bin[p + i..p + j][k]
    {
    }
  }

  /** The description at some offset decodes v and leaves the cursor at q. */
  predicate Yields<T(==)>(r: Parsed<T>, v: T, q: nat)
  {
    r.Ok? && r.value.0 == v && r.value.1 == q
  }

  /** Prefix of values already decoded, prepended to what the rest of a loop decodes. */

  function Then<T>(acc: seq<T>, rest: Parsed<seq<T>>): Parsed<seq<T>>
  {
    match rest
    case Ok(vq) => Ok((acc + vq.0, vq.1))
    case Err(e) => Err(e)
  }

  // ---------------------------------------------------------------------------
  // Header and section types

  /** The 20-byte file header `Z4 Z2 Z2 I> Z4 Z4`. */
  datatype Header = Header(ident: string, major: string, minor: string, size: nat,
                           compiler: string, version: string)

  const RITE: seq<byte> := [0x52, 0x49, 0x54, 0x45]
  const IREP: seq<byte> := [0x49, 0x52, 0x45, 0x50]
  const LVAR: seq<byte> := [0x4C, 0x56, 0x41, 0x52]
  const DBG: seq<byte> := [0x44, 0x42, 0x47, 0x00]
  const END: seq<byte> := [0x45, 0x4E, 0x44, 0x00]

  function HeaderAt(bin: seq<byte>, p: nat): Parsed<Header>
  {
    var h :- Take(bin, p, 20);
    var ident := ZString(h[..4]);
    if ident != "RITE" then Err(NotMrubyBinary)
    else Ok((Header(ident, ZString(h[4..6]), ZString(h[6..8]), BE32(h[8..12]),
                    ZString(h[12..16]), ZString(h[16..20])), p + 20))
  }

  /**
   * The header is exactly 20 bytes, and it is accepted exactly when its first four
   * bytes are "RITE"; a shorter input is truncated.
   */
  lemma HeaderCheck(bin: seq<byte>, p: nat)
    ensures p + 20 > |bin| ==> HeaderAt(bin, p) == Err(TruncatedInput(p, 20))
    ensures p + 20 <= |bin| ==> (HeaderAt(bin, p).Ok? <==> bin[p..p + 4] == RITE)
    ensures HeaderAt(bin, p).Ok? ==> HeaderAt(bin, p).value.1 == p + 20
  {
    if p + 20 <= |bin| {
      var f := bin[p..p + 20][..4];
      assert f == bin[p..p + 4];
      ZStringPrefix(f);
      if ZString(f) == "RITE" {
        assert f == RITE;
      }
      if f == RITE {
        assert ZString(f) == ZString([0x52, 0x49, 0x54, 0x45]);
      }
    }
  }

  // ---------------------------------------------------------------------------
  // Instructions

  /** Operands as the loader reads them; the BSS case is the corrected big-endian reading. */
  function DecodeOperands(s: Shape, x: seq<byte>): (nat, nat, nat)
    requires OperandWidth(s) == Some(|x|)
  {
    match s
    case Z => (0, 0, 0)
    case B => (x[0] as nat, 0, 0)
    case BB => (x[0] as nat, x[1] as nat, 0)
    case BBB => (x[0] as nat, x[1] as nat, x[2] as nat)
    case BS => (x[0] as nat, BE16(x[1..3]), 0)
    case BSS => BssOperands(x)
    case W => (BE16(x[..2]), 0, 0)
  }

  /** `CS>S>`: the intended reading of a BSS operand group, all multi-byte fields big-endian. */
  function BssOperands(x: seq<byte>): (nat, nat, nat)
    requires |x| == 5
  {
    (x[0] as nat, BE16(x[1..3]), BE16(x[3..5]))
  }

  /** `CSS>` as written: the middle field in the host's (little-endian) order. */
  function BssOperandsAsWritten(x: seq<byte>): (nat, nat, nat)
    requires |x| == 5
  {
    (x[0] as nat, LE16(x[1..3]), BE16(x[3..5]))
  }

  /** The bytes an instruction occupies: the opcode byte and its operands. */
  function InstrSize(i: Instr): nat
  {
    match OperandWidth(ShapeOf(i.op))
    case Some(w) => 1 + w
    case None => 1
  }

  /** Decoding one instruction: opcode byte, table lookup, then the operands its shape calls for. */
  function InstrAt(bin: seq<byte>, p: nat): (r: Parsed<Instr>)
    ensures r.Ok? ==> OperandWidth(ShapeOf(r.value.0.op)).Some?
    ensures r.Ok? ==> r.value.1 == p + InstrSize(r.value.0) <= |bin|
  {
    var code :- Take(bin, p, 1);
    match OpOf(code[0] as nat)
    case None => Err(UnknownOpcode(code[0]))
    case Some(op) =>
      match OperandWidth(ShapeOf(op))
      case None => Err(UnsupportedOperandShape(op))
      case Some(w) =>
        var x :- Take(bin, p + 1, w);
        var abc := DecodeOperands(ShapeOf(op), x);
        Ok((Instr(op, abc.0, abc.1, abc.2), p + 1 + w))
  }

  /**
   * Decoding fails on an opcode byte above the table (code > 0x69) and on the two
   * jump opcodes, whose shape S has no decoding case.
   */
  lemma InstrErrors(bin: seq<byte>, p: nat)
    requires p < |bin|
    ensures bin[p] as nat > LastCode ==> InstrAt(bin, p) == Err(UnknownOpcode(bin[p]))
    ensures bin[p] as nat == Code(JMP) ==> InstrAt(bin, p) == Err(UnsupportedOperandShape(JMP))
    ensures bin[p] as nat == Code(JMPUW) ==> InstrAt(bin, p) == Err(UnsupportedOperandShape(JMPUW))
    ensures InstrAt(bin, p).Ok? ==> OpOf(bin[p] as nat) == Some(InstrAt(bin, p).value.0.op)
  {
    assert bin[p..p + 1][0] == bin[p];
    TableDense(bin[p] as nat);
    CodeLookup(JMP);
    CodeLookup(JMPUW);
  }

  /** Total size of a decoded instruction stream. */
  function IseqSize(ins: seq<Instr>): nat
  {
    if ins == [] then 0 else IseqSize(ins[..|ins| - 1]) + InstrSize(ins[|ins| - 1])
  }

  /**
   * The instruction loop `while cur - start < ilen`, entered at offset p.  It stops at
   * the first instruction boundary at which at least ilen bytes have been consumed:
   * the stream ends at or past start + ilen, and its last instruction began before it.
   */
  function IseqsAt(bin: seq<byte>, start: nat, p: nat, ilen: nat): (r: Parsed<seq<Instr>>)
    requires start <= p <= |bin|
    ensures r.Ok? ==> p <= r.value.1 <= |bin|
    decreases |bin| - p
  {
    if p - start >= ilen then Ok(([], p))
    else
      var iq :- InstrAt(bin, p);
      var rest :- IseqsAt(bin, start, iq.1, ilen);
      Ok(([iq.0] + rest.0, rest.1))
  }

  /**
   * Where the instruction loop stops: the decoded stream covers exactly the bytes
   * consumed, reaches start + ilen, and its last instruction began before it; the
   * stream is empty exactly when the loop was entered at or past start + ilen.
   */
  lemma {:induction false} IseqsAtStops(bin: seq<byte>, start: nat, p: nat, ilen: nat)
    requires start <= p <= |bin|
    ensures var r := IseqsAt(bin, start, p, ilen);
            r.Ok? ==> r.value.1 == p + IseqSize(r.value.0) && r.value.1 - start >= ilen
    ensures var r := IseqsAt(bin, start, p, ilen);
            r.Ok? && r.value.0 != [] ==> r.value.1 - InstrSize(r.value.0[|r.value.0| - 1]) - start < ilen
    ensures var r := IseqsAt(bin, start, p, ilen);
            r.Ok? ==> (r.value.0 == [] <==> p - start >= ilen)
    decreases |bin| - p
  {
    if p - start < ilen {
      var iq := InstrAt(bin, p);
      if iq.Ok? {
        var q := iq.value.1;
        IseqsAtStops(bin, start, q, ilen);
        var rest := IseqsAt(bin, start, q, ilen);
        if rest.Ok? {
          var ins := rest.value.0;
          IseqSizeCons(iq.value.0, ins);
          if ins != [] {
            assert ([iq.value.0] + ins)[|ins|] == ins[|ins| - 1];
          }
        }
      }
    }
  }

  /** One instruction at p, then the rest of the stream, is the stream at p. */
  lemma IseqsAtCons(bin: seq<byte>, start: nat, p: nat, ilen: nat, i: Instr, q: nat, ins: seq<Instr>, e: nat)
    requires start <= p <= q <= |bin| && p - start < ilen
    requires Yields(InstrAt(bin, p), i, q) && Yields(IseqsAt(bin, start, q, ilen), ins, e)
    ensures Yields(IseqsAt(bin, start, p, ilen), [i] + ins, e)
  {
  }

  lemma {:induction false} IseqSizeCons(i: Instr, ins: seq<Instr>)
    ensures IseqSize([i] + ins) == InstrSize(i) + IseqSize(ins)
    decreases |ins|
  {
    if ins != [] {
      var last := ins[|ins| - 1];
      assert ([i] + ins)[..|ins|] == [i] + ins[..|ins| - 1];
      IseqSizeCons(i, ins[..|ins| - 1]);
    }
  }

  // ---------------------------------------------------------------------------
  // Literal pool and symbol table

  /**
   * One pool entry `tag(1) len(2)`: only tag 0 (string) is accepted, and it consumes
   * 3 + len + 1 bytes (the string and its terminator).
   */
  function LiteralAt(bin: seq<byte>, p: nat): (r: Parsed<string>)
    ensures r.Ok? ==> p + 3 <= |bin| && bin[p] == 0
    ensures r.Ok? ==> r.value.1 == p + 3 + BE16(bin[p + 1..p + 3]) + 1 <= |bin|
    ensures p + 3 <= |bin| && bin[p] != 0 ==> r == Err(UnsupportedLiteral(bin[p]))
  {
    var h :- Take(bin, p, 3);
    var len := BE16(h[1..3]);
    assert h[1..3] == bin[p + 1..p + 3];
    if h[0] != 0 then Err(UnsupportedLiteral(h[0]))
    else
      var body :- Take(bin, p + 3, len);
      var nul :- Take(bin, p + 3 + len, 1);
      Ok((ZString(body), p + 3 + len + 1))
  }

  /** k pool entries in order, starting at p. */
  function LiteralsAt(bin: seq<byte>, p: nat, k: nat): (r: Parsed<seq<string>>)
    requires p <= |bin|
    ensures r.Ok? ==> |r.value.0| == k && p <= r.value.1 <= |bin|
    decreases k
  {
    if k == 0 then Ok(([], p))
    else
      var lq :- LiteralAt(bin, p);
      var rest :- LiteralsAt(bin, lq.1, k - 1);
      Ok(([lq.0] + rest.0, rest.1))
  }

  /** One entry at p, then k - 1 more, is k entries. */
  lemma LiteralsAtCons(bin: seq<byte>, p: nat, k: nat, rest: nat, l: string, q: nat, ls: seq<string>, e: nat)
    requires p <= q
    requires q <= |bin|
    requires k == rest + 1
    requires Yields(LiteralAt(bin, p), l, q)
    requires Yields(LiteralsAt(bin, q, rest), ls, e)
    ensures Yields(LiteralsAt(bin, p, k), [l] + ls, e)
  {
  }

  /** The pool block: a 2-byte count, then that many entries. */
  function PoolAt(bin: seq<byte>, p: nat): (r: Parsed<seq<string>>)
    ensures r.Ok? ==> p + 2 <= |bin| && |r.value.0| == BE16(bin[p..p + 2])
    ensures r.Ok? ==> p + 2 <= r.value.1 <= |bin|
  {
    var n :- Take(bin, p, 2);
    LiteralsAt(bin, p + 2, BE16(n))
  }

  /** One symbol `len(2)`, consuming 2 + len + 1 bytes (the name and its terminator). */
  function SymbolAt(bin: seq<byte>, p: nat): (r: Parsed<string>)
    ensures r.Ok? ==> p + 2 <= |bin| && r.value.1 == p + 2 + BE16(bin[p..p + 2]) + 1 <= |bin|
  {
    var n :- Take(bin, p, 2);
    var len := BE16(n);
    var body :- Take(bin, p + 2, len);
    var nul :- Take(bin, p + 2 + len, 1);
    Ok((ZString(body), p + 2 + len + 1))
  }

  /** k symbols in order, starting at p. */
  function SymbolsAt(bin: seq<byte>, p: nat, k: nat): (r: Parsed<seq<string>>)
    requires p <= |bin|
    ensures r.Ok? ==> |r.value.0| == k && p <= r.value.1 <= |bin|
    decreases k
  {
    if k == 0 then Ok(([], p))
    else
      var sq :- SymbolAt(bin, p);
      var rest :- SymbolsAt(bin, sq.1, k - 1);
      Ok(([sq.0] + rest.0, rest.1))
  }

  /** One symbol at p, then k - 1 more, is k symbols. */
  lemma SymbolsAtCons(bin: seq<byte>, p: nat, k: nat, rest: nat, x: string, q: nat, ss: seq<string>, e: nat)
    requires p <= q <= |bin| && k == rest + 1
    requires Yields(SymbolAt(bin, p), x, q) && Yields(SymbolsAt(bin, q, rest), ss, e)
    ensures Yields(SymbolsAt(bin, p, k), [x] + ss, e)
  {
  }

  /** The symbol block: a 2-byte count, then that many symbols. */
  function SymsAt(bin: seq<byte>, p: nat): (r: Parsed<seq<string>>)
    ensures r.Ok? ==> p + 2 <= |bin| && |r.value.0| == BE16(bin[p..p + 2])
    ensures r.Ok? ==> p + 2 <= r.value.1 <= |bin|
  {
    var n :- Take(bin, p, 2);
    SymbolsAt(bin, p + 2, BE16(n))
  }

  // ---------------------------------------------------------------------------
  // Instruction records

  /**
   * One record: the 16-byte header `I> S> S> S> S> I>` (record size, nlocals, nregs,
   * rlen, clen, ilen), the instruction stream, the pool, the symbols, then exactly
   * rlen child records.
   */
  function IrepAt(bin: seq<byte>, p: nat): (r: Parsed<Rep>)
    requires p <= |bin|
    ensures r.Ok? ==> p + 16 <= r.value.1 <= |bin|
    decreases |bin| - p, 0
  {
    var h :- Take(bin, p, 16);
    var nlocals, nregs, rlen, clen, ilen := BE16(bin[p + 4..p + 6]), BE16(bin[p + 6..p + 8]),
      BE16(bin[p + 8..p + 10]), BE16(bin[p + 10..p + 12]), BE32(bin[p + 12..p + 16]);
    var iseqs :- IseqsAt(bin, p + 16, p + 16, ilen);
    var pool :- PoolAt(bin, iseqs.1);
    var syms :- SymsAt(bin, pool.1);
    var kids :- IrepsAt(bin, syms.1, rlen);
    Ok((Rep(nlocals, nregs, clen, iseqs.0, pool.0, syms.0, kids.0), kids.1))
  }

  /**
   * A record's header is 16 bytes of big-endian fields: nlocals, nregs, the child
   * count rlen and clen are read from offsets 4, 6, 8 and 10.
   */
  lemma IrepHeader(bin: seq<byte>, p: nat)
    requires p <= |bin|
    ensures IrepAt(bin, p).Ok? ==> var rep := IrepAt(bin, p).value.0;
              && rep.nlocals == BE16(bin[p + 4..p + 6])
              && rep.nregs == BE16(bin[p + 6..p + 8])
              && |rep.children| == BE16(bin[p + 8..p + 10])
              && rep.clen == BE16(bin[p + 10..p + 12])
  {
  }

  /** A record assembled from its header fields and the blocks that follow the header. */
  lemma IrepAtCompose(bin: seq<byte>, p: nat, nlocals: nat, nregs: nat, rlen: nat, clen: nat, ilen: nat,
                      ins: seq<Instr>, q1: nat, pool: seq<string>, q2: nat,
                      syms: seq<string>, q3: nat, kids: seq<Rep>, e: nat)
    requires p + 16 <= q1 <= q2 <= q3 <= |bin|
    requires BE16(bin[p + 4..p + 6]) == nlocals && BE16(bin[p + 6..p + 8]) == nregs
    requires BE16(bin[p + 8..p + 10]) == rlen && BE16(bin[p + 10..p + 12]) == clen
    requires BE32(bin[p + 12..p + 16]) == ilen
    requires Yields(IseqsAt(bin, p + 16, p + 16, ilen), ins, q1)
    requires Yields(PoolAt(bin, q1), pool, q2) && Yields(SymsAt(bin, q2), syms, q3)
    requires Yields(IrepsAt(bin, q3, rlen), kids, e)
    ensures Yields(IrepAt(bin, p), Rep(nlocals, nregs, clen, ins, pool, syms, kids), e)
  {
  }

  /** `rlen.times { parse_irep }`: k records in order, starting at p. */
  function IrepsAt(bin: seq<byte>, p: nat, k: nat): (r: Parsed<seq<Rep>>)
    requires p <= |bin|
    ensures r.Ok? ==> |r.value.0| == k && p <= r.value.1 <= |bin|
    decreases |bin| - p, 1, k
  {
    if k == 0 then Ok(([], p))
    else
      var rq :- IrepAt(bin, p);
      var rest :- IrepsAt(bin, rq.1, k - 1);
      Ok(([rq.0] + rest.0, rest.1))
  }

  /** One step of the child loop: the first record, then the k - 1 after it. */
  lemma IrepsAtStep(bin: seq<byte>, p: nat, k: nat, rest: nat)
    requires p <= |bin| && k == rest + 1
    ensures IrepAt(bin, p).Err? ==> IrepsAt(bin, p, k) == Err(IrepAt(bin, p).error)
    ensures IrepAt(bin, p).Ok? ==>
              IrepsAt(bin, p, k) == Then([IrepAt(bin, p).value.0], IrepsAt(bin, IrepAt(bin, p).value.1, rest))
  {
    var c := IrepAt(bin, p);
    if c.Ok? {
      var tail := IrepsAt(bin, c.value.1, rest);
      if tail.Ok? {
        assert IrepsAt(bin, p, k) == Ok(([c.value.0] + tail.value.0, tail.value.1));
      } else {
        assert IrepsAt(bin, p, k) == Err(tail.error);
      }
    }
  }

  /** A record followed by k - 1 more is k records. */
  lemma IrepsAtCons(bin: seq<byte>, p: nat, k: nat, r: Rep, q: nat, rs: seq<Rep>, e: nat)
    requires p <= q <= |bin| && k > 0
    requires Yields(IrepAt(bin, p), r, q) && Yields(IrepsAt(bin, q, k - 1), rs, e)
    ensures Yields(IrepsAt(bin, p, k), [r] + rs, e)
  {
  }

  // ---------------------------------------------------------------------------
  // Sections and the whole image

  /** What one section contributes: a record tree, nothing (skipped), or the end marker. */
  datatype Section = Irep(rep: Rep) | Skipped | EndMarker

  /**
   * One section `type(4) size(4)`: IREP holds a 4-byte version then one record tree,
   * LVAR is skipped by exactly size bytes, END ends the image, and DBG or any other
   * type aborts the load.
   */
  function SectionAt(bin: seq<byte>, p: nat): (r: Parsed<Section>)
    requires p <= |bin|
    ensures r.Ok? ==> p + 8 <= r.value.1 <= |bin|
    ensures r.Ok? && r.value.0.Skipped? ==>
              r.value.1 == p + 8 + BE32(bin[p + 4..p + 8]) && bin[p..p + 4] == LVAR
    ensures p + 8 <= |bin| && bin[p..p + 4] == LVAR && p + 8 + BE32(bin[p + 4..p + 8]) <= |bin| ==>
              Yields(r, Skipped, p + 8 + BE32(bin[p + 4..p + 8]))
    ensures r.Ok? && r.value.0.EndMarker? ==> r.value.1 == p + 8 && bin[p..p + 4] == END
    ensures r.Ok? && r.value.0.Irep? ==> bin[p..p + 4] == IREP
    ensures p + 8 <= |bin| && bin[p..p + 4] == DBG ==> r == Err(UnsupportedSection(DBG))
    ensures p + 8 <= |bin| && bin[p..p + 4] !in {IREP, LVAR, DBG, END} ==>
              r == Err(UnknownSection(bin[p..p + 4]))
  {
    var h :- Take(bin, p, 8);
    var kind := h[..4];
    var size := BE32(h[4..]);
    assert kind == bin[p..p + 4] && h[4..] == bin[p + 4..p + 8];
    if kind == IREP then
      var ver :- Take(bin, p + 8, 4);
      var rq :- IrepAt(bin, p + 12);
      Ok((Irep(rq.0), rq.1))
    else if kind == LVAR then
      var skipped :- Take(bin, p + 8, size);
      Ok((Skipped, p + 8 + size))
    else if kind == DBG then Err(UnsupportedSection(kind))
    else if kind == END then Ok((EndMarker, p + 8))
    else Err(UnknownSection(kind))
  }

  /** An IREP section: its type, a size field, a 4-byte version, then one record tree. */
  lemma SectionAtIrep(bin: seq<byte>, p: nat, r: Rep, e: nat)
    requires p + 12 <= |bin| && bin[p..p + 4] == IREP
    requires Yields(IrepAt(bin, p + 12), r, e)
    ensures Yields(SectionAt(bin, p), Irep(r), e)
  {
    assert bin[p..p + 8][..4] == bin[p..p + 4];
  }

  /** The END section ends the section loop with nothing more collected. */
  lemma SectionsAtEnd(bin: seq<byte>, p: nat)
    requires p + 8 <= |bin| && bin[p..p + 4] == END
    ensures Yields(SectionAt(bin, p), EndMarker, p + 8)
    ensures SectionsAt(bin, p).Ok? && SectionsAt(bin, p).value == []
  {
    assert bin[p..p + 8][..4] == bin[p..p + 4];
  }

  /** A skipped (LVAR) section contributes nothing: the loop goes on right after it. */
  lemma SectionsAtSkip(bin: seq<byte>, p: nat, q: nat)
    requires p <= |bin| && Yields(SectionAt(bin, p), Skipped, q)
    ensures q <= |bin| && SectionsAt(bin, p) == SectionsAt(bin, q)
  {
  }

  /** An IREP section followed by the sections after it. */
  lemma SectionsAtCons(bin: seq<byte>, p: nat, r: Rep, q: nat, rs: seq<Rep>)
    requires p < q <= |bin|
    requires Yields(SectionAt(bin, p), Irep(r), q)
    requires SectionsAt(bin, q).Ok? && SectionsAt(bin, q).value == rs
    ensures SectionsAt(bin, p).Ok? && SectionsAt(bin, p).value == [r] + rs
  {
  }

  /**
   * The section loop `until all_read?`: it ends once the offset reaches the end of
   * the input or at an END section, collecting the record tree of every IREP section.
   */
  function SectionsAt(bin: seq<byte>, p: nat): (r: Result<seq<Rep>, ParseError>)
    requires p <= |bin|
    decreases |bin| - p
  {
    if p >= |bin| then Ok([])
    else
      var sq :- SectionAt(bin, p);
      match sq.0
      case EndMarker => Ok([])
      case Skipped => SectionsAt(bin, sq.1)
      case Irep(rep) =>
        var rest :- SectionsAt(bin, sq.1);
        Ok([rep] + rest)
  }

  /** `parse`: the header at offset 0, then the sections that follow it. */
  function ParseImage(bin: seq<byte>): Result<Image, ParseError>
  {
    var hq :- HeaderAt(bin, 0);
    var reps :- SectionsAt(bin, hq.1);
    Ok(Image(hq.0.major, hq.0.minor, reps))
  }

  /** A header at offset 0 that starts with "RITE" is accepted, carrying its two version fields. */
  lemma HeaderAccepted(bin: seq<byte>)
    requires 20 <= |bin| && bin[..4] == RITE
    ensures HeaderAt(bin, 0).Ok? && HeaderAt(bin, 0).value.1 == 20
    ensures HeaderAt(bin, 0).value.0.major == ZString(bin[4..6])
    ensures HeaderAt(bin, 0).value.0.minor == ZString(bin[6..8])
  {
    HeaderCheck(bin, 0);
    assert bin[0..20][4..6] == bin[4..6] && bin[0..20][6..8] == bin[6..8];
  }

  /** An accepted header followed by sections that read back gives the image. */
  lemma ParseImageCompose(bin: seq<byte>, major: string, minor: string, reps: seq<Rep>)
    requires 20 <= |bin| && bin[..4] == RITE
    requires ZString(bin[4..6]) == major && ZString(bin[6..8]) == minor
    requires SectionsAt(bin, 20).Ok? && SectionsAt(bin, 20).value == reps
    ensures ParseImage(bin).Ok? && ParseImage(bin).value == Image(major, minor, reps)
  {
    HeaderAccepted(bin);
  }
}
