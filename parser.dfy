/**
 * The RITE loader as the source writes it: a parser object holding the image and a
 * cursor `cur` that every `Read` advances.  Each parsing method is proved to return
 * what the position-indexed description in `Format` says is at the cursor, and to
 * leave the cursor just after it.
 */
module MrbParser {
  import opened Base
  import opened Wire
  import opened Opcodes
  import opened Mrb
  import opened Format

  /** Values already decoded, prepended to what the rest of a position-free loop decodes. */
  function Prepend<T>(acc: seq<T>, rest: Result<seq<T>, ParseError>): Result<seq<T>, ParseError>
  {
    match rest
    case Ok(v) => Ok(acc + v)
    case Err(e) => Err(e)
  }

  class Parser {
    /** The whole image (`@bin`); never changed. */
    const bin: seq<byte>
    /** The offset of the next byte to read (`@cur`). */
    var cur: nat

    /** Reads never take the cursor past the end of the image. */
    ghost predicate Valid()
      reads this
    {
      cur <= |bin|
    }

    constructor (bin: seq<byte>)
      ensures Valid() && this.bin == bin && cur == 0
    {
      this.bin := bin;
      cur := 0;
    }

    /** `peek(n)`: the n bytes at the cursor, leaving the cursor where it is. */
    method Peek(n: nat) returns (r: Result<seq<byte>, ParseError>)
      ensures r.Ok? <==> cur + n <= |bin|
      ensures r.Ok? ==> r.value == bin[cur..cur + n]
      ensures r.Err? ==> r.error == TruncatedInput(cur, n)
    {
      r := Take(bin, cur, n);
    }

    /**
     * `read(n)`: the n bytes at the cursor, advancing it by exactly n.  When fewer
     * than n bytes remain the read fails and the cursor stays put.
     */
    method Read(n: nat) returns (r: Result<seq<byte>, ParseError>)
      requires Valid()
      modifies this
      ensures Valid()
      ensures r == Take(bin, old(cur), n)
      ensures old(cur) <= cur
      ensures cur == if r.Ok? then old(cur) + n else old(cur)
    {
      r := Peek(n);
      if r.Ok? {
        cur := cur + n;
      }
    }

    /** `all_read?`: the cursor has reached or passed the end of the image. */
    method AllRead() returns (b: bool)
      ensures b <==> cur >= |bin|
    {
      b := cur >= |bin|;
    }

    /**
     * `parse`: the 20-byte header, whose identifier must be "RITE", then sections
     * until the image is exhausted or an END section is read.
     */
    method Parse() returns (r: Result<Image, ParseError>)
      requires Valid() && cur == 0
      modifies this
      ensures Valid()
      ensures r == ParseImage(bin)
    {
      var h := Read(20);
      if h.Err? {
        return Err(h.error);
      }
      var f := h.value;
      var ident := ZString(f[..4]);
      if ident != "RITE" {
        return Err(NotMrubyBinary);
      }
      var header := Header(ident, ZString(f[4..6]), ZString(f[6..8]), BE32(f[8..12]),
                           ZString(f[12..16]), ZString(f[16..20]));
      assert HeaderAt(bin, 0) == Ok((header, 20));
      var reps := ParseSections();
      if reps.Err? {
        return Err(reps.error);
      }
      r := Ok(Image(header.major, header.minor, reps.value));
    }

    /**
     * The `until all_read?` loop of `parse`: sections until the image is exhausted or
     * an END section is read; IREP holds one record tree, LVAR is skipped, and DBG or
     * any other section type aborts the load.
     */
    method ParseSections() returns (r: Result<seq<Rep>, ParseError>)
      requires Valid()
      modifies this
      ensures Valid()
      ensures r == SectionsAt(bin, old(cur))
    {
      ghost var start := cur;
      var reps: seq<Rep> := [];
      PrependEmpty(SectionsAt(bin, start));
      var done := AllRead();
      while !done
        invariant Valid() && start <= cur
        invariant done <==> cur >= |bin|
        invariant SectionsAt(bin, start) == Prepend(reps, SectionsAt(bin, cur))
        decreases |bin| - cur
      {
        ghost var p := cur;
        var sec := ReadSection();
        if sec.Err? {
          assert SectionsAt(bin, p) == Err(sec.error);
          return Err(sec.error);
        }
        match sec.value {
          case EndMarker =>
            assert SectionsAt(bin, p) == Ok([]);
            assert reps + [] == reps;
            break;
          case Skipped =>
          case Irep(rep) =>
            assert SectionsAt(bin, p) == Prepend([rep], SectionsAt(bin, cur));
            PrependAssoc(reps, [rep], SectionsAt(bin, cur));
            reps := reps + [rep];
        }
        done := AllRead();
      }
      if done {
        assert reps + [] == reps;
      }
      r := Ok(reps);
    }

    /** One turn of the section loop: `type(4) size(4)` and what that type calls for. */
    method ReadSection() returns (r: Result<Section, ParseError>)
      requires Valid()
      modifies this
      ensures Valid()
      ensures Agrees(r, cur, SectionAt(bin, old(cur)))
    {
      var s := Read(8);
      if s.Err? {
        return Err(s.error);
      }
      var kind, size := s.value[..4], BE32(s.value[4..]);
      if kind == IREP {
        var ver := Read(4);
        if ver.Err? {
          return Err(ver.error);
        }
        var rep := ParseIrep();
        if rep.Err? {
          return Err(rep.error);
        }
        r := Ok(Irep(rep.value));
      } else if kind == LVAR {
        var skipped := Read(size);
        if skipped.Err? {
          return Err(skipped.error);
        }
        r := Ok(Skipped);
      } else if kind == DBG {
        r := Err(UnsupportedSection(kind));
      } else if kind == END {
        r := Ok(EndMarker);
      } else {
        r := Err(UnknownSection(kind));
      }
    }

    /**
     * `parse_irep`: the 16-byte big-endian header, the instruction stream, the pool,
     * the symbols, then as many child records as the header's rlen field says.
     * (The source also passes the section size along, only to log it.)
     */
    method ParseIrep() returns (r: Result<Rep, ParseError>)
      requires Valid()
      modifies this
      ensures Valid()
      ensures Agrees(r, cur, IrepAt(bin, old(cur)))
      decreases |bin| - cur, 0
    {
      ghost var p := cur;
      var h := Read(16);
      if h.Err? {
        return Err(h.error);
      }
      var f := h.value;
      assert f == bin[p..p + 16];
      SliceOfTake(bin, p, 16, 4, 6);
      SliceOfTake(bin, p, 16, 6, 8);
      SliceOfTake(bin, p, 16, 8, 10);
      SliceOfTake(bin, p, 16, 10, 12);
      SliceOfTake(bin, p, 16, 12, 16);
      var nlocals, nregs, rlen, clen, ilen :=
        BE16(f[4..6]), BE16(f[6..8]), BE16(f[8..10]), BE16(f[10..12]), BE32(f[12..16]);
      var iseqs := ParseIseqs(ilen);
      if iseqs.Err? {
        return Err(iseqs.error);
      }
      var pool := ParsePoolBlock();
      if pool.Err? {
        return Err(pool.error);
      }
      var syms := ParseSymsBlock();
      if syms.Err? {
        return Err(syms.error);
      }
      var children := ParseChildren(rlen);
      if children.Err? {
        return Err(children.error);
      }
      r := Ok(Rep(nlocals, nregs, clen, iseqs.value, pool.value, syms.value, children.value));
    }

    /** `rlen.times { parse_irep }`: k child records, in order. */
    method ParseChildren(k: nat) returns (r: Result<seq<Rep>, ParseError>)
      requires Valid()
      modifies this
      ensures Valid()
      ensures Agrees(r, cur, IrepsAt(bin, old(cur), k))
      decreases |bin| - cur, 2
    {
      ghost var p := cur;
      var children: seq<Rep> := [];
      var left := k;
      NothingReadYet(IrepsAt(bin, p, k), IrepsAt(bin, cur, left), children);
      while left > 0
        invariant Valid() && p <= cur
        invariant IrepsAt(bin, p, k) == Then(children, IrepsAt(bin, cur, left))
      {
        var child, rest := ReadChild(IrepsAt(bin, p, k), children, left);
        if child.Err? {
          return Err(child.error);
        }
        children := children + [child.value];
        left := rest;
      }
      assert children + [] == children;
      r := Ok(children);
    }

    /**
     * One pass of the `rlen.times` loop: the first of the k records still to come,
     * added to the `children` read so far; `rest` records then remain.
     */
    method ReadChild(ghost whole: Parsed<seq<Rep>>, ghost children: seq<Rep>, k: nat)
      returns (r: Result<Rep, ParseError>, rest: nat)
      requires Valid() && k > 0 && whole == Then(children, IrepsAt(bin, cur, k))
      modifies this
      ensures Valid() && (r.Ok? ==> old(cur) < cur) && rest == k - 1
      ensures r.Err? ==> whole == Err(r.error)
      ensures r.Ok? ==> whole == Then(children + [r.value], IrepsAt(bin, cur, rest))
      decreases |bin| - cur, 1
    {
      rest := k - 1;
      IrepsAtStep(bin, cur, k, rest);
      ghost var q := cur;
      r := ParseIrep();
      if r.Ok? {
        ThenStep(whole, children, r.value, IrepsAt(bin, q, k), IrepsAt(bin, cur, rest));
      }
    }

    /** `parse_iseqs`: decode instructions while fewer than ilen bytes have been consumed. */
    method ParseIseqs(ilen: nat) returns (r: Result<seq<Instr>, ParseError>)
      requires Valid()
      modifies this
      ensures Valid()
      ensures Agrees(r, cur, IseqsAt(bin, old(cur), old(cur), ilen))
    {
      var start := cur;
      var iseqs: seq<Instr> := [];
      ThenEmpty(IseqsAt(bin, start, start, ilen));
      while cur - start < ilen
        invariant Valid() && start <= cur
        invariant IseqsAt(bin, start, start, ilen) == Then(iseqs, IseqsAt(bin, start, cur, ilen))
        decreases |bin| - cur
      {
        var ins := ReadInstr();
        if ins.Err? {
          return Err(ins.error);
        }
        ThenAssoc(iseqs, [ins.value], IseqsAt(bin, start, cur, ilen));
        iseqs := iseqs + [ins.value];
      }
      assert iseqs + [] == iseqs;
      r := Ok(iseqs);
    }

    /**
     * One turn of the `parse_iseqs` loop: the opcode byte, its table entry, and the
     * operand bytes its shape calls for.
     */
    method ReadInstr() returns (r: Result<Instr, ParseError>)
      requires Valid()
      modifies this
      ensures Valid()
      ensures Agrees(r, cur, InstrAt(bin, old(cur)))
    {
      ghost var p := cur;
      var code := Read(1);
      if code.Err? {
        return Err(code.error);
      }
      var entry := OpOf(code.value[0] as nat);
      if entry.None? {
        return Err(UnknownOpcode(code.value[0]));
      }
      var op := entry.value;
      var x: seq<byte>;
      match ShapeOf(op) {
        case Z =>
          x := [];
        case B =>
          var o := Read(1);
          if o.Err? { return Err(o.error); }
          x := o.value;
        case BB =>
          var o := Read(2);
          if o.Err? { return Err(o.error); }
          x := o.value;
        case BBB =>
          var o := Read(3);
          if o.Err? { return Err(o.error); }
          x := o.value;
        case BS =>
          var o := Read(3);
          if o.Err? { return Err(o.error); }
          x := o.value;
        case BSS =>
          var o := Read(5);
          if o.Err? { return Err(o.error); }
          x := o.value;
        case W =>
          var o := Read(2);
          if o.Err? { return Err(o.error); }
          x := o.value;
        case S =>
          return Err(UnsupportedOperandShape(op));
      }
      assert x == bin[p + 1..p + 1 + |x|];
      var abc := DecodeOperands(ShapeOf(op), x);
      r := Ok(Instr(op, abc.0, abc.1, abc.2));
    }

    /** `parse_pool_block`: a literal count, then that many string literals (tag 0 only). */
    method ParsePoolBlock() returns (r: Result<seq<string>, ParseError>)
      requires Valid()
      modifies this
      ensures Valid()
      ensures Agrees(r, cur, PoolAt(bin, old(cur)))
    {
      ghost var p := cur;
      var n := Read(2);
      if n.Err? {
        return Err(n.error);
      }
      var count := BE16(n.value);
      var lits: seq<string> := [];
      var left := count;
      NothingReadYet(PoolAt(bin, p), LiteralsAt(bin, cur, left), lits);
      while left > 0
        invariant Valid()
        invariant PoolAt(bin, p) == Then(lits, LiteralsAt(bin, cur, left))
      {
        var lit, rest := ReadPoolEntry(PoolAt(bin, p), lits, left);
        if lit.Err? {
          return Err(lit.error);
        }
        lits := lits + [lit.value];
        left := rest;
      }
      assert lits + [] == lits;
      r := Ok(lits);
    }

    /**
     * One pass of the `n.times` loop of `parse_pool_block`: the first of the k
     * literals still to come, added to the `lits` read so far.
     */
    method ReadPoolEntry(ghost whole: Parsed<seq<string>>, ghost lits: seq<string>, k: nat)
      returns (r: Result<string, ParseError>, rest: nat)
      requires Valid() && k > 0 && whole == Then(lits, LiteralsAt(bin, cur, k))
      modifies this
      ensures Valid() && rest == k - 1
      ensures r.Err? ==> whole == Err(r.error)
      ensures r.Ok? ==> whole == Then(lits + [r.value], LiteralsAt(bin, cur, rest))
    {
      ghost var q := cur;
      rest := k - 1;
      r := ReadLiteral();
      if r.Ok? {
        assert LiteralsAt(bin, q, k) == Then([r.value], LiteralsAt(bin, cur, rest));
        ThenStep(whole, lits, r.value, LiteralsAt(bin, q, k), LiteralsAt(bin, cur, rest));
      } else {
        assert LiteralsAt(bin, q, k) == Err(r.error);
      }
    }

    /** `parse_syms_block`: a symbol count, then that many NUL-terminated names. */
    method ParseSymsBlock() returns (r: Result<seq<string>, ParseError>)
      requires Valid()
      modifies this
      ensures Valid()
      ensures Agrees(r, cur, SymsAt(bin, old(cur)))
    {
      ghost var p := cur;
      var n := Read(2);
      if n.Err? {
        return Err(n.error);
      }
      var count := BE16(n.value);
      var syms: seq<string> := [];
      var left := count;
      NothingReadYet(SymsAt(bin, p), SymbolsAt(bin, cur, left), syms);
      while left > 0
        invariant Valid()
        invariant SymsAt(bin, p) == Then(syms, SymbolsAt(bin, cur, left))
      {
        var sym, rest := ReadSymsEntry(SymsAt(bin, p), syms, left);
        if sym.Err? {
          return Err(sym.error);
        }
        syms := syms + [sym.value];
        left := rest;
      }
      assert syms + [] == syms;
      r := Ok(syms);
    }

    /**
     * One pass of the `n.times` loop of `parse_syms_block`: the first of the k
     * names still to come, added to the `syms` read so far.
     */
    method ReadSymsEntry(ghost whole: Parsed<seq<string>>, ghost syms: seq<string>, k: nat)
      returns (r: Result<string, ParseError>, rest: nat)
      requires Valid() && k > 0 && whole == Then(syms, SymbolsAt(bin, cur, k))
      modifies this
      ensures Valid() && rest == k - 1
      ensures r.Err? ==> whole == Err(r.error)
      ensures r.Ok? ==> whole == Then(syms + [r.value], SymbolsAt(bin, cur, rest))
    {
      ghost var q := cur;
      rest := k - 1;
      r := ReadSymbol();
      if r.Ok? {
        assert SymbolsAt(bin, q, k) == Then([r.value], SymbolsAt(bin, cur, rest));
        ThenStep(whole, syms, r.value, SymbolsAt(bin, q, k), SymbolsAt(bin, cur, rest));
      } else {
        assert SymbolsAt(bin, q, k) == Err(r.error);
      }
    }

    /** One turn of the `parse_pool_block` loop: `tag(1) len(2)`, the string, its terminator. */
    method ReadLiteral() returns (r: Result<string, ParseError>)
      requires Valid()
      modifies this
      ensures Valid()
      ensures Agrees(r, cur, LiteralAt(bin, old(cur)))
    {
      ghost var p := cur;
      var th := Read(3);
      if th.Err? {
        return Err(th.error);
      }
      var tag, len := th.value[0], BE16(th.value[1..3]);
      if tag != 0 {
        return Err(UnsupportedLiteral(tag));
      }
      var body := Read(len);
      if body.Err? {
        return Err(body.error);
      }
      var nul := Read(1);
      if nul.Err? {
        return Err(nul.error);
      }
      r := Ok(ZString(body.value));
    }

    /** One turn of the `parse_syms_block` loop: `len(2)`, the name, its terminator. */
    method ReadSymbol() returns (r: Result<string, ParseError>)
      requires Valid()
      modifies this
      ensures Valid()
      ensures Agrees(r, cur, SymbolAt(bin, old(cur)))
    {
      var lh := Read(2);
      if lh.Err? {
        return Err(lh.error);
      }
      var len := BE16(lh.value);
      var body := Read(len);
      if body.Err? {
        return Err(body.error);
      }
      var nul := Read(1);
      if nul.Err? {
        return Err(nul.error);
      }
      r := Ok(ZString(body.value));
    }
  }

  /** One more item parsed: it moves from what is still to come to what has been read. */
  lemma ThenStep<T>(whole: Parsed<seq<T>>, acc: seq<T>, v: T, mid: Parsed<seq<T>>, rest: Parsed<seq<T>>)
    requires whole == Then(acc, mid) && mid == Then([v], rest)
    ensures whole == Then(acc + [v], rest)
  {
    ThenAssoc(acc, [v], rest);
  }

  lemma ThenAssoc<T>(acc: seq<T>, more: seq<T>, rest: Parsed<seq<T>>)
    ensures Then(acc, Then(more, rest)) == Then(acc + more, rest)
  {
    if rest.Ok? {
      assert acc + (more + rest.value.0) == acc + more + rest.value.0;
    }
  }

  /** Before the first item is read, everything is still to come. */
  lemma NothingReadYet<T>(whole: Parsed<seq<T>>, rest: Parsed<seq<T>>, acc: seq<T>)
    requires whole == rest && acc == []
    ensures whole == Then(acc, rest)
  {
    ThenEmpty(rest);
  }

  lemma ThenEmpty<T>(rest: Parsed<seq<T>>)
    ensures Then([], rest) == rest
  {
    if rest.Ok? {
      assert [] + rest.value.0 == rest.value.0;
    }
  }

  lemma PrependEmpty<T>(rest: Result<seq<T>, ParseError>)
    ensures Prepend([], rest) == rest
  {
    if rest.Ok? {
      assert [] + rest.value == rest.value;
    }
  }

  lemma PrependAssoc<T>(acc: seq<T>, more: seq<T>, rest: Result<seq<T>, ParseError>)
    ensures Prepend(acc, Prepend(more, rest)) == Prepend(acc + more, rest)
  {
    if rest.Ok? {
      assert acc + (more + rest.value) == acc + more + rest.value;
    }
  }
}
