/** The decoded form of a RITE image: instruction records and their instructions. */
module Mrb {
  import opened Opcodes

  /**
   * One decoded instruction, in the `(name, a, b, c)` form the interpreter reads as
   * `op[0..3]`.  Operands the opcode's shape does not have are 0.
   */
  datatype Instr = Instr(op: Opcode, a: nat, b: nat, c: nat)

  /**
   * An instruction record ("irep"): local and register counts, the catch-handler
   * count, the instruction stream, the literal pool (strings), the symbol table and
   * the nested records, in file order.
   */
  datatype Rep = Rep(
    nlocals: nat,
    nregs: nat,
    clen: nat,
    iseqs: seq<Instr>,
    pool: seq<string>,
    syms: seq<string>,
    children: seq<Rep>)

  /** A loaded image: the header's version strings and the top-level records, one per code section. */
  datatype Image = Image(major: string, minor: string, reps: seq<Rep>)
}
