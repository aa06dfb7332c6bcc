/**
 * The register-machine interpreter over a loaded image: one growable register
 * file shared by every top-level record, the current record, and the handful of
 * opcodes it executes.  `STOP` ends the current record only; any opcode it does
 * not handle aborts the run.  Sending a message to the host's `self` is a call
 * into the host, given as a parameter.
 */
module Interpreter {
  import opened Base
  import opened Opcodes
  import opened Mrb

  /** What a register holds: an integer, a string, a symbol, nil, or an object the host returned. */
  datatype Value = Int(i: int) | Str(s: string) | Sym(name: string) | Nil | Host(id: nat)

  /** Why a run stops with an error (a Ruby exception in the source). */
  datatype VmError =
    | UnknownOpcode(op: Opcode)
    | NotInternable(v: Value)
    | NoSelector(index: nat)
    | SendFailed(selector: string)

  /**
   * The host's `self.__send__(selector, *args)`: the value it returns, or None
   * when the host raises.
   */
  type Host = (string, seq<Value>) -> Option<Value>

  // ---------------------------------------------------------------------------
  // The register file

  /** `@regs[i]`: a register never written reads as nil. */
  function Get(regs: seq<Value>, i: nat): Value
  {
    if i < |regs| then regs[i] else Nil
  }

  /** n registers of nil. */
  function Nils(n: nat): (r: seq<Value>)
    ensures |r| == n && forall k | 0 <= k < n :: r[k] == Nil
  {
    seq(n, _ => Nil)
  }

  /**
   * `@regs[i] = v`: register i now holds v and every other register reads as
   * before; writing past the end grows the file, filling the gap with nil.
   */
  function Set(regs: seq<Value>, i: nat, v: Value): (r: seq<Value>)
    ensures |r| == if i < |regs| then |regs| else i + 1
    ensures Get(r, i) == v
    ensures forall j | j != i :: Get(r, j) == Get(regs, j)
  {
    if i < |regs| then regs[i := v] else regs + Nils(i - |regs|) + [v]
  }

  /**
   * `@regs[start, len]` splatted into an argument list: the registers from start
   * on, at most len of them, cut short where the file ends (a start past the end
   * gives no arguments).
   */
  function Args(regs: seq<Value>, start: nat, len: nat): (r: seq<Value>)
    ensures |r| == if start >= |regs| then 0 else if start + len <= |regs| then len else |regs| - start
    ensures forall k | 0 <= k < |r| :: r[k] == Get(regs, start + k)
  {
    if start >= |regs| then []
    else if start + len <= |regs| then regs[start..start + len]
    else regs[start..]
  }

  /** `@rep.pool[b]`: the pool string, or nil past the end of the pool. */
  function PoolEntry(rep: Rep, b: nat): Value
  {
    if b < |rep.pool| then Str(rep.pool[b]) else Nil
  }

  /** `String#intern`: a string becomes the symbol of the same name; anything else raises. */
  function Intern(v: Value): (r: Result<Value, VmError>)
    ensures r.Ok? <==> v.Str?
    ensures v.Str? ==> r == Ok(Sym(v.s))
  {
    match v
    case Str(s) => Ok(Sym(s))
    case _ => Err(NotInternable(v))
  }

  // ---------------------------------------------------------------------------
  // One instruction

  /** What one instruction does: continue with new registers, stop the record, or fail. */
  datatype Outcome = Next(regs: seq<Value>) | Halt(regs: seq<Value>) | Fail(error: VmError)

  /** The opcodes `eval_iseq` has a branch for. */
  predicate Handled(op: Opcode)
  {
    op.NOP? || op.MOVE? || op.LOADL? || op.LOADI? || op.LOADINEG? || op.LOADI__1? || op.LOADI_0?
    || op.LOADI_1? || op.SSEND? || op.RETURN? || op.INTERN? || op.SYMBOL? || op.STRING? || op.STOP?
  }

  /** A computed value stored in register a, or the error that computing it raised. */
  function Store(regs: seq<Value>, a: nat, v: Result<Value, VmError>): Outcome
  {
    match v
    case Ok(x) => Next(Set(regs, a, x))
    case Err(e) => Fail(e)
  }

  /** `eval_iseq`: one instruction `(op, a, b, c)` against the registers and the current record. */
  function Exec(regs: seq<Value>, rep: Rep, i: Instr, send: Host): Outcome
  {
    if Handled(i.op) then ExecHandled(regs, rep, i, send) else Fail(UnknownOpcode(i.op))
  }

  /** The branches that only move or load a value into register a. */
  predicate IsLoad(op: Opcode)
  {
    op.MOVE? || op.LOADL? || op.STRING? || op.LOADI? || op.LOADINEG? || op.LOADI__1? || op.LOADI_0? || op.LOADI_1?
  }

  /** The value such a branch stores into register a. */
  function Loaded(regs: seq<Value>, rep: Rep, i: Instr): Value
    requires IsLoad(i.op)
  {
    if i.op.MOVE? then Get(regs, i.b)
    else if i.op.LOADL? || i.op.STRING? then PoolEntry(rep, i.b)
    else if i.op.LOADI? then Int(i.b)
    else if i.op.LOADINEG? then Int(-(i.b as int))
    else if i.op.LOADI__1? then Int(-1)
    else if i.op.LOADI_0? then Int(0)
    else Int(1)
  }

  /** `self.__send__(syms[b], *R[a+1, c])`: the answer, or why there is none. */
  function Sent(regs: seq<Value>, rep: Rep, i: Instr, send: Host): Result<Value, VmError>
  {
    if i.b >= |rep.syms| then Err(NoSelector(i.b))
    else
      match send(rep.syms[i.b], Args(regs, i.a + 1, i.c))
      case Some(v) => Ok(v)
      case None => Err(SendFailed(rep.syms[i.b]))
  }

  /** The branches of `eval_iseq`; none of them reports an unknown opcode. */
  function ExecHandled(regs: seq<Value>, rep: Rep, i: Instr, send: Host): (o: Outcome)
    requires Handled(i.op)
    ensures o.Fail? ==> !o.error.UnknownOpcode?
    ensures o.Halt? <==> i.op == STOP
  {
    if IsLoad(i.op) then Next(Set(regs, i.a, Loaded(regs, rep, i)))
    else if i.op.SSEND? then Store(regs, i.a, Sent(regs, rep, i, send))
    else if i.op.INTERN? then Store(regs, i.a, Intern(Get(regs, i.a)))
    else if i.op.SYMBOL? then Store(regs, i.a, Intern(PoolEntry(rep, i.b)))
    else if i.op.STOP? then Halt(regs) // `throw :OP_STOP`
    else Next(regs) // NOP and RETURN
  }

  /** The outcome a step reports: whether it stopped the record, with the registers it left, or its error. */
  function Reached(r: Result<bool, VmError>, regs: seq<Value>): Outcome
  {
    match r
    case Ok(stopped) => if stopped then Halt(regs) else Next(regs)
    case Err(e) => Fail(e)
  }

  /** The instruction wrote v into register a and left every other register as it was. */
  ghost predicate WroteOnly(before: seq<Value>, o: Outcome, a: nat, v: Value)
  {
    o.Next? && Get(o.regs, a) == v && forall j | j != a :: Get(o.regs, j) == Get(before, j)
  }

  /** `MOVE a b` copies R[b] into R[a]; no other register changes. */
  lemma ExecMove(regs: seq<Value>, rep: Rep, a: nat, b: nat, c: nat, send: Host)
    ensures WroteOnly(regs, Exec(regs, rep, Instr(MOVE, a, b, c), send), a, Get(regs, b))
  {
  }

  /** `LOADI a b` writes the operand b into one register, and `LOADINEG a b` writes -b. */
  lemma ExecLoadImmediate(regs: seq<Value>, rep: Rep, a: nat, b: nat, c: nat, send: Host)
    ensures WroteOnly(regs, Exec(regs, rep, Instr(LOADI, a, b, c), send), a, Int(b))
    ensures WroteOnly(regs, Exec(regs, rep, Instr(LOADINEG, a, b, c), send), a, Int(-(b as int)))
  {
  }

  /** `LOADI__1`, `LOADI_0` and `LOADI_1` write the constant -1, 0 or 1 into one register. */
  lemma ExecLoadConstant(regs: seq<Value>, rep: Rep, a: nat, b: nat, c: nat, send: Host)
    ensures WroteOnly(regs, Exec(regs, rep, Instr(LOADI__1, a, b, c), send), a, Int(-1))
    ensures WroteOnly(regs, Exec(regs, rep, Instr(LOADI_0, a, b, c), send), a, Int(0))
    ensures WroteOnly(regs, Exec(regs, rep, Instr(LOADI_1, a, b, c), send), a, Int(1))
  {
  }

  /** `LOADL a b` and `STRING a b` write pool entry b, or nil past the end of the pool. */
  lemma ExecPoolLoads(regs: seq<Value>, rep: Rep, a: nat, b: nat, c: nat, send: Host)
    ensures WroteOnly(regs, Exec(regs, rep, Instr(LOADL, a, b, c), send), a,
                      if b < |rep.pool| then Str(rep.pool[b]) else Nil)
    ensures WroteOnly(regs, Exec(regs, rep, Instr(STRING, a, b, c), send), a,
                      if b < |rep.pool| then Str(rep.pool[b]) else Nil)
  {
  }

  /** `SYMBOL a b` writes the symbol named by pool entry b, and raises past the pool. */
  lemma ExecSymbol(regs: seq<Value>, rep: Rep, a: nat, b: nat, c: nat, send: Host)
    ensures b < |rep.pool| ==> WroteOnly(regs, Exec(regs, rep, Instr(SYMBOL, a, b, c), send), a, Sym(rep.pool[b]))
    ensures b >= |rep.pool| ==> Exec(regs, rep, Instr(SYMBOL, a, b, c), send) == Fail(NotInternable(Nil))
  {
  }

  /** `INTERN a` turns the string in R[a] into a symbol; any other value raises. */
  lemma ExecIntern(regs: seq<Value>, rep: Rep, a: nat, b: nat, c: nat, send: Host)
    ensures Get(regs, a).Str? ==> WroteOnly(regs, Exec(regs, rep, Instr(INTERN, a, b, c), send), a, Sym(Get(regs, a).s))
    ensures !Get(regs, a).Str? ==> Exec(regs, rep, Instr(INTERN, a, b, c), send) == Fail(NotInternable(Get(regs, a)))
  {
  }

  /** `NOP` and `RETURN` leave every register as it was. */
  lemma ExecNopReturn(regs: seq<Value>, rep: Rep, a: nat, b: nat, c: nat, send: Host)
    ensures Exec(regs, rep, Instr(NOP, a, b, c), send) == Next(regs)
    ensures Exec(regs, rep, Instr(RETURN, a, b, c), send) == Next(regs)
  {
  }

  /**
   * `SSEND a b c` sends selector syms[b] to the host with R[a+1] .. R[a+c] as the
   * arguments (fewer when the file ends first) and stores the answer in R[a];
   * a missing selector or a host that raises fails.
   */
  lemma ExecSend(regs: seq<Value>, rep: Rep, a: nat, b: nat, c: nat, send: Host)
    ensures var o, args := Exec(regs, rep, Instr(SSEND, a, b, c), send), Args(regs, a + 1, c);
      (b >= |rep.syms| ==> o == Fail(NoSelector(b)))
      && (b < |rep.syms| && send(rep.syms[b], args).Some? ==> WroteOnly(regs, o, a, send(rep.syms[b], args).value))
      && (b < |rep.syms| && send(rep.syms[b], args).None? ==> o == Fail(SendFailed(rep.syms[b])))
      && (a + c < |regs| ==> |args| == c && forall k | 0 <= k < c :: args[k] == regs[a + 1 + k])
      && (a + 1 >= |regs| ==> args == [])
  {
  }

  /** Every opcode without a branch raises "Unknown opcode", and none of the handled ones does. */
  lemma ExecUnknown(regs: seq<Value>, rep: Rep, i: Instr, send: Host)
    ensures !Handled(i.op) <==> Exec(regs, rep, i, send) == Fail(UnknownOpcode(i.op))
  {
  }

  /** For instance `LOADI_2` .. `LOADI_7` and `ADD` are not executed. */
  lemma UnknownExamples(regs: seq<Value>, rep: Rep, a: nat, b: nat, c: nat, send: Host)
    ensures forall op | op in {LOADI_2, LOADI_3, LOADI_4, LOADI_5, LOADI_6, LOADI_7, ADD} ::
      Exec(regs, rep, Instr(op, a, b, c), send) == Fail(UnknownOpcode(op))
  {
    forall op | op in {LOADI_2, LOADI_3, LOADI_4, LOADI_5, LOADI_6, LOADI_7, ADD}
      ensures Exec(regs, rep, Instr(op, a, b, c), send) == Fail(UnknownOpcode(op))
    {
      ExecUnknown(regs, rep, Instr(op, a, b, c), send);
    }
  }

  // ---------------------------------------------------------------------------
  // Records and the whole run

  /** The instructions of a record run in order until one stops the record or fails. */
  function RunIseqs(regs: seq<Value>, rep: Rep, ins: seq<Instr>, send: Host): Outcome
    decreases |ins|
  {
    if ins == [] then Next(regs)
    else
      match Exec(regs, rep, ins[0], send)
      case Next(r) => RunIseqs(r, rep, ins[1..], send)
      case o => o
  }

  /**
   * Running xs then ys is running xs and, if it neither stopped nor failed,
   * running ys from where it left the registers.
   */
  lemma {:induction false} RunIseqsAppend(regs: seq<Value>, rep: Rep, xs: seq<Instr>, ys: seq<Instr>, send: Host)
    ensures RunIseqs(regs, rep, xs + ys, send) ==
      match RunIseqs(regs, rep, xs, send)
      case Next(r) => RunIseqs(r, rep, ys, send)
      case o => o
    decreases |xs|
  {
    if xs == [] {
      assert xs + ys == ys;
    } else {
      assert (xs + ys)[0] == xs[0] && (xs + ys)[1..] == xs[1..] + ys;
      match Exec(regs, rep, xs[0], send)
      case Next(r) => RunIseqsAppend(r, rep, xs[1..], ys, send);
      case _ =>
    }
  }

  /** Once an instruction stops the record, no later instruction of that record runs. */
  lemma StopSkipsRest(regs: seq<Value>, rep: Rep, xs: seq<Instr>, ys: seq<Instr>, send: Host)
    requires RunIseqs(regs, rep, xs, send).Halt?
    ensures RunIseqs(regs, rep, xs + ys, send) == RunIseqs(regs, rep, xs, send)
  {
    RunIseqsAppend(regs, rep, xs, ys, send);
  }

  /** `eval_rep`: the record's instructions, with `STOP` caught at the record's end. */
  function EvalRep(regs: seq<Value>, rep: Rep, send: Host): Result<seq<Value>, VmError>
  {
    match RunIseqs(regs, rep, rep.iseqs, send)
    case Next(r) => Ok(r)
    case Halt(r) => Ok(r)
    case Fail(e) => Err(e)
  }

  /** `run`: every top-level record in order, over one shared register file. */
  function RunReps(regs: seq<Value>, reps: seq<Rep>, send: Host): Result<seq<Value>, VmError>
    decreases |reps|
  {
    if reps == [] then Ok(regs)
    else
      match EvalRep(regs, reps[0], send)
      case Ok(r) => RunReps(r, reps[1..], send)
      case Err(e) => Err(e)
  }

  /**
   * Records share the registers: running xs then ys is running ys from the
   * registers xs left, unless xs failed.
   */
  lemma {:induction false} RunRepsAppend(regs: seq<Value>, xs: seq<Rep>, ys: seq<Rep>, send: Host)
    ensures RunReps(regs, xs + ys, send) ==
      match RunReps(regs, xs, send)
      case Ok(r) => RunReps(r, ys, send)
      case Err(e) => Err(e)
    decreases |xs|
  {
    if xs == [] {
      assert xs + ys == ys;
    } else {
      assert (xs + ys)[0] == xs[0] && (xs + ys)[1..] == xs[1..] + ys;
      match EvalRep(regs, xs[0], send)
      case Ok(r) => RunRepsAppend(r, xs[1..], ys, send);
      case Err(_) =>
    }
  }

  /**
   * `STOP` ends only its own record: a record whose instructions stop after
   * reaching registers r hands r to the next record, whatever follows the `STOP`.
   */
  lemma StopContinuesWithNextRecord(regs: seq<Value>, rep: Rep, more: seq<Rep>, xs: seq<Instr>, ys: seq<Instr>, send: Host)
    requires rep.iseqs == xs + ys && RunIseqs(regs, rep, xs, send).Halt?
    ensures RunReps(regs, [rep] + more, send) == RunReps(RunIseqs(regs, rep, xs, send).regs, more, send)
  {
    StopSkipsRest(regs, rep, xs, ys, send);
    assert ([rep] + more)[0] == rep && ([rep] + more)[1..] == more;
  }

  // ---------------------------------------------------------------------------
  // The interpreter object

  /** `Vm`: the image, the host's `self`, the register file and the record being run. */
  class Vm {
    const image: Image
    const send: Host
    var regs: seq<Value>
    /** `@rep`; it is assigned before any instruction reads it. */
    var rep: Rep

    constructor (image: Image, send: Host)
      ensures this.image == image && this.send == send && regs == []
    {
      this.image := image;
      this.send := send;
      regs := [];
      rep := Rep(0, 0, 0, [], [], [], []);
    }

    /** `@regs[a] = v`, growing the file with nils when a is past its end. */
    method Write(a: nat, v: Value)
      modifies this
      ensures regs == Set(old(regs), a, v) && rep == old(rep)
    {
      if a < |regs| {
        regs := regs[a := v];
      } else {
        regs := regs + Nils(a - |regs|) + [v];
      }
    }

    /**
     * `eval_iseq`: executes one instruction of the current record; the answer
     * says whether the record stopped.
     */
    method EvalIseq(i: Instr) returns (r: Result<bool, VmError>)
      modifies this
      ensures rep == old(rep)
      ensures Exec(old(regs), rep, i, send) == Reached(r, regs)
    {
      if Handled(i.op) {
        r := EvalHandled(i);
      } else {
        r := Err(UnknownOpcode(i.op));
      }
    }

    /** The opcodes with a branch of their own. */
    method EvalHandled(i: Instr) returns (r: Result<bool, VmError>)
      requires Handled(i.op)
      modifies this
      ensures rep == old(rep)
      ensures ExecHandled(old(regs), rep, i, send) == Reached(r, regs)
    {
      r := Ok(false);
      if IsLoad(i.op) {
        Write(i.a, Loaded(regs, rep, i));
      } else if i.op.SSEND? {
        r := EvalSend(i);
      } else if i.op.INTERN? || i.op.SYMBOL? {
        r := EvalIntern(i);
      } else if i.op.STOP? {
        r := Ok(true);
      }
    }

    /** `SSEND a b c`: `R[a] = self.__send__(syms[b], *R[a+1, c])`. */
    method EvalSend(i: Instr) returns (r: Result<bool, VmError>)
      requires i.op.SSEND?
      modifies this
      ensures rep == old(rep) && ExecHandled(old(regs), rep, i, send) == Reached(r, regs)
    {
      var args := Args(regs, i.a + 1, i.c);
      if i.b >= |rep.syms| {
        return Err(NoSelector(i.b));
      }
      var answer := send(rep.syms[i.b], args);
      if answer.None? {
        return Err(SendFailed(rep.syms[i.b]));
      }
      Write(i.a, answer.value);
      r := Ok(false);
    }

    /** `INTERN a` and `SYMBOL a b`: a string from R[a] or from the pool becomes a symbol in R[a]. */
    method EvalIntern(i: Instr) returns (r: Result<bool, VmError>)
      requires i.op.INTERN? || i.op.SYMBOL?
      modifies this
      ensures rep == old(rep) && ExecHandled(old(regs), rep, i, send) == Reached(r, regs)
    {
      var v := Intern(if i.op.INTERN? then Get(regs, i.a) else PoolEntry(rep, i.b));
      if v.Err? {
        return Err(v.error);
      }
      Write(i.a, v.value);
      r := Ok(false);
    }

    /** `eval_rep`: makes rep current and runs its instructions until one stops it or fails. */
    method EvalRepOf(rep: Rep) returns (r: Result<(), VmError>)
      modifies this
      ensures this.rep == rep
      ensures r.Ok? ==> EvalRep(old(regs), rep, send) == Ok(regs)
      ensures r.Err? ==> EvalRep(old(regs), rep, send) == Err(r.error)
    {
      this.rep := rep;
      var k := 0;
      while k < |rep.iseqs|
        invariant this.rep == rep && k <= |rep.iseqs|
        invariant RunIseqs(old(regs), rep, rep.iseqs, send) == RunIseqs(regs, rep, rep.iseqs[k..], send)
      {
        assert rep.iseqs[k..][0] == rep.iseqs[k] && rep.iseqs[k..][1..] == rep.iseqs[k + 1..];
        var stopped := EvalIseq(rep.iseqs[k]);
        if stopped.Err? {
          return Err(stopped.error);
        }
        if stopped.value {
          return Ok(());
        }
        k := k + 1;
      }
      r := Ok(());
    }

    /** `run`: every top-level record of the image in order, sharing the registers. */
    method Run() returns (r: Result<(), VmError>)
      modifies this
      ensures r.Ok? ==> RunReps(old(regs), image.reps, send) == Ok(regs)
      ensures r.Err? ==> RunReps(old(regs), image.reps, send) == Err(r.error)
    {
      var reps := image.reps;
      var k := 0;
      while k < |reps|
        invariant k <= |reps|
        invariant RunReps(old(regs), reps, send) == RunReps(regs, reps[k..], send)
      {
        assert reps[k..][0] == reps[k] && reps[k..][1..] == reps[k + 1..];
        var done := EvalRepOf(reps[k]);
        if done.Err? {
          return Err(done.error);
        }
        k := k + 1;
      }
      r := Ok(());
    }
  }
}
