/**
 * The static opcode table of the RITE instruction set (codes 0x00..0x69), as a
 * function from an opcode byte to the mnemonic and from the mnemonic to its code
 * and operand shape.  Constructor names are the table's mnemonics without the
 * `OP_` prefix.
 */
module Opcodes {
  import opened Base

  /** How the operand bytes that follow an opcode are laid out. */
  datatype Shape =
    | Z    // no operand
    | B    // one 8-bit operand
    | BB   // two 8-bit operands
    | BBB  // three 8-bit operands
    | BS   // an 8-bit and a 16-bit operand
    | BSS  // an 8-bit and two 16-bit operands
    | W    // one 16-bit operand
    | S    // one 16-bit operand, a shape the loader has no decoding case for

  datatype Opcode = NOP | MOVE | LOADL | LOADI | LOADINEG | LOADI__1 | LOADI_0 | LOADI_1
    | LOADI_2 | LOADI_3 | LOADI_4 | LOADI_5 | LOADI_6 | LOADI_7 | LOADI16 | LOADI32 | LOADSYM
    | LOADNIL | LOADSELF | LOADT | LOADF | GETGV | SETGV | GETSV | SETSV | GETIV | SETIV | GETCV
    | SETCV | GETCONST | SETCONST | GETMCNST | SETMCNST | GETUPVAR | SETUPVAR | GETIDX | SETIDX
    | JMP | JMPIF | JMPNOT | JMPNIL | JMPUW | EXCEPT | RESCUE | RAISEIF | SSEND | SSENDB | SEND
    | SENDB | CALL | SUPER | ARGARY | ENTER | KEY_P | KEYEND | KARG | RETURN | RETURN_BLK
    | BREAK | BLKPUSH | ADD | ADDI | SUB | SUBI | MUL | DIV | EQ | LT | LE | GT | GE | ARRAY
    | ARRAY2 | ARYCAT | ARYPUSH | ARYDUP | AREF | ASET | APOST | INTERN | SYMBOL | STRING
    | STRCAT | HASH | HASHADD | HASHCAT | LAMBDA | BLOCK | METHOD | RANGE_INC | RANGE_EXC
    | OCLASS | CLASS | MODULE | EXEC | DEF | ALIAS | UNDEF | SCLASS | TCLASS | DEBUG | ERR
    | EXT1 | EXT2 | EXT3 | STOP

  /** The `code:` column of the table. */
  function Code(op: Opcode): (k: nat)
    ensures k <= LastCode
  {
    match op
    case NOP => 0x00
    case MOVE => 0x01
    case LOADL => 0x02
    case LOADI => 0x03
    case LOADINEG => 0x04
    case LOADI__1 => 0x05
    case LOADI_0 => 0x06
    case LOADI_1 => 0x07
    case LOADI_2 => 0x08
    case LOADI_3 => 0x09
    case LOADI_4 => 0x0A
    case LOADI_5 => 0x0B
    case LOADI_6 => 0x0C
    case LOADI_7 => 0x0D
    case LOADI16 => 0x0E
    case LOADI32 => 0x0F
    case LOADSYM => 0x10
    case LOADNIL => 0x11
    case LOADSELF => 0x12
    case LOADT => 0x13
    case LOADF => 0x14
    case GETGV => 0x15
    case SETGV => 0x16
    case GETSV => 0x17
    case SETSV => 0x18
    case GETIV => 0x19
    case SETIV => 0x1A
    case GETCV => 0x1B
    case SETCV => 0x1C
    case GETCONST => 0x1D
    case SETCONST => 0x1E
    case GETMCNST => 0x1F
    case SETMCNST => 0x20
    case GETUPVAR => 0x21
    case SETUPVAR => 0x22
    case GETIDX => 0x23
    case SETIDX => 0x24
    case JMP => 0x25
    case JMPIF => 0x26
    case JMPNOT => 0x27
    case JMPNIL => 0x28
    case JMPUW => 0x29
    case EXCEPT => 0x2A
    case RESCUE => 0x2B
    case RAISEIF => 0x2C
    case SSEND => 0x2D
    case SSENDB => 0x2E
    case SEND => 0x2F
    case SENDB => 0x30
    case CALL => 0x31
    case SUPER => 0x32
    case ARGARY => 0x33
    case ENTER => 0x34
    case KEY_P => 0x35
    case KEYEND => 0x36
    case KARG => 0x37
    case RETURN => 0x38
    case RETURN_BLK => 0x39
    case BREAK => 0x3A
    case BLKPUSH => 0x3B
    case ADD => 0x3C
    case ADDI => 0x3D
    case SUB => 0x3E
    case SUBI => 0x3F
    case MUL => 0x40
    case DIV => 0x41
    case EQ => 0x42
    case LT => 0x43
    case LE => 0x44
    case GT => 0x45
    case GE => 0x46
    case ARRAY => 0x47
    case ARRAY2 => 0x48
    case ARYCAT => 0x49
    case ARYPUSH => 0x4A
    case ARYDUP => 0x4B
    case AREF => 0x4C
    case ASET => 0x4D
    case APOST => 0x4E
    case INTERN => 0x4F
    case SYMBOL => 0x50
    case STRING => 0x51
    case STRCAT => 0x52
    case HASH => 0x53
    case HASHADD => 0x54
    case HASHCAT => 0x55
    case LAMBDA => 0x56
    case BLOCK => 0x57
    case METHOD => 0x58
    case RANGE_INC => 0x59
    case RANGE_EXC => 0x5A
    case OCLASS => 0x5B
    case CLASS => 0x5C
    case MODULE => 0x5D
    case EXEC => 0x5E
    case DEF => 0x5F
    case ALIAS => 0x60
    case UNDEF => 0x61
    case SCLASS => 0x62
    case TCLASS => 0x63
    case DEBUG => 0x64
    case ERR => 0x65
    case EXT1 => 0x66
    case EXT2 => 0x67
    case EXT3 => 0x68
    case STOP => 0x69
  }

  /** The `operand_type:` column of the table. */
  function ShapeOf(op: Opcode): Shape
  {
    match op
    case NOP | CALL | KEYEND | EXT1 | EXT2 | EXT3 | STOP => Z
    case LOADI__1 | LOADI_0 | LOADI_1 | LOADI_2 | LOADI_3 | LOADI_4 | LOADI_5 | LOADI_6
      | LOADI_7 | LOADNIL | LOADSELF | LOADT | LOADF | GETIDX | SETIDX | EXCEPT | RAISEIF
      | RETURN | RETURN_BLK | BREAK | ADD | SUB | MUL | DIV | EQ | LT | LE | GT | GE | ARYCAT
      | ARYDUP | INTERN | STRCAT | HASHCAT | RANGE_INC | RANGE_EXC | OCLASS | UNDEF | SCLASS
      | TCLASS | ERR => B
    case MOVE | LOADL | LOADI | LOADINEG | LOADSYM | GETGV | SETGV | GETSV | SETSV | GETIV
      | SETIV | GETCV | SETCV | GETCONST | SETCONST | GETMCNST | SETMCNST | RESCUE | SUPER
      | KEY_P | KARG | ADDI | SUBI | ARRAY | ARYPUSH | SYMBOL | STRING | HASH | HASHADD | LAMBDA
      | BLOCK | METHOD | CLASS | MODULE | EXEC | DEF | ALIAS => BB
    case GETUPVAR | SETUPVAR | SSEND | SSENDB | SEND | SENDB | ARRAY2 | AREF | ASET | APOST
      | DEBUG => BBB
    case LOADI16 | JMPIF | JMPNOT | JMPNIL | ARGARY | BLKPUSH => BS
    case LOADI32 => BSS
    case ENTER => W
    case JMP | JMPUW => S
  }

  /**
   * The lookup `OP_TABLE[code]`: None for a byte with no table entry.  The table
   * is written in rows of sixteen codes.
   */
  function OpOf(code: nat): Option<Opcode>
  {
    if code < 0x10 then Row00(code)
    else if code < 0x20 then Row10(code)
    else if code < 0x30 then Row20(code)
    else if code < 0x40 then Row30(code)
    else if code < 0x50 then Row40(code)
    else if code < 0x60 then Row50(code)
    else if code < 0x70 then Row60(code)
    else None
  }

  function Row00(code: nat): Option<Opcode>
  {
    match code
    case 0x00 => Some(NOP)
    case 0x01 => Some(MOVE)
    case 0x02 => Some(LOADL)
    case 0x03 => Some(LOADI)
    case 0x04 => Some(LOADINEG)
    case 0x05 => Some(LOADI__1)
    case 0x06 => Some(LOADI_0)
    case 0x07 => Some(LOADI_1)
    case 0x08 => Some(LOADI_2)
    case 0x09 => Some(LOADI_3)
    case 0x0A => Some(LOADI_4)
    case 0x0B => Some(LOADI_5)
    case 0x0C => Some(LOADI_6)
    case 0x0D => Some(LOADI_7)
    case 0x0E => Some(LOADI16)
    case 0x0F => Some(LOADI32)
    case _ => None
  }

  function Row10(code: nat): Option<Opcode>
  {
    match code
    case 0x10 => Some(LOADSYM)
    case 0x11 => Some(LOADNIL)
    case 0x12 => Some(LOADSELF)
    case 0x13 => Some(LOADT)
    case 0x14 => Some(LOADF)
    case 0x15 => Some(GETGV)
    case 0x16 => Some(SETGV)
    case 0x17 => Some(GETSV)
    case 0x18 => Some(SETSV)
    case 0x19 => Some(GETIV)
    case 0x1A => Some(SETIV)
    case 0x1B => Some(GETCV)
    case 0x1C => Some(SETCV)
    case 0x1D => Some(GETCONST)
    case 0x1E => Some(SETCONST)
    case 0x1F => Some(GETMCNST)
    case _ => None
  }

  function Row20(code: nat): Option<Opcode>
  {
    match code
    case 0x20 => Some(SETMCNST)
    case 0x21 => Some(GETUPVAR)
    case 0x22 => Some(SETUPVAR)
    case 0x23 => Some(GETIDX)
    case 0x24 => Some(SETIDX)
    case 0x25 => Some(JMP)
    case 0x26 => Some(JMPIF)
    case 0x27 => Some(JMPNOT)
    case 0x28 => Some(JMPNIL)
    case 0x29 => Some(JMPUW)
    case 0x2A => Some(EXCEPT)
    case 0x2B => Some(RESCUE)
    case 0x2C => Some(RAISEIF)
    case 0x2D => Some(SSEND)
    case 0x2E => Some(SSENDB)
    case 0x2F => Some(SEND)
    case _ => None
  }

  function Row30(code: nat): Option<Opcode>
  {
    match code
    case 0x30 => Some(SENDB)
    case 0x31 => Some(CALL)
    case 0x32 => Some(SUPER)
    case 0x33 => Some(ARGARY)
    case 0x34 => Some(ENTER)
    case 0x35 => Some(KEY_P)
    case 0x36 => Some(KEYEND)
    case 0x37 => Some(KARG)
    case 0x38 => Some(RETURN)
    case 0x39 => Some(RETURN_BLK)
    case 0x3A => Some(BREAK)
    case 0x3B => Some(BLKPUSH)
    case 0x3C => Some(ADD)
    case 0x3D => Some(ADDI)
    case 0x3E => Some(SUB)
    case 0x3F => Some(SUBI)
    case _ => None
  }

  function Row40(code: nat): Option<Opcode>
  {
    match code
    case 0x40 => Some(MUL)
    case 0x41 => Some(DIV)
    case 0x42 => Some(EQ)
    case 0x43 => Some(LT)
    case 0x44 => Some(LE)
    case 0x45 => Some(GT)
    case 0x46 => Some(GE)
    case 0x47 => Some(ARRAY)
    case 0x48 => Some(ARRAY2)
    case 0x49 => Some(ARYCAT)
    case 0x4A => Some(ARYPUSH)
    case 0x4B => Some(ARYDUP)
    case 0x4C => Some(AREF)
    case 0x4D => Some(ASET)
    case 0x4E => Some(APOST)
    case 0x4F => Some(INTERN)
    case _ => None
  }

  function Row50(code: nat): Option<Opcode>
  {
    match code
    case 0x50 => Some(SYMBOL)
    case 0x51 => Some(STRING)
    case 0x52 => Some(STRCAT)
    case 0x53 => Some(HASH)
    case 0x54 => Some(HASHADD)
    case 0x55 => Some(HASHCAT)
    case 0x56 => Some(LAMBDA)
    case 0x57 => Some(BLOCK)
    case 0x58 => Some(METHOD)
    case 0x59 => Some(RANGE_INC)
    case 0x5A => Some(RANGE_EXC)
    case 0x5B => Some(OCLASS)
    case 0x5C => Some(CLASS)
    case 0x5D => Some(MODULE)
    case 0x5E => Some(EXEC)
    case 0x5F => Some(DEF)
    case _ => None
  }

  function Row60(code: nat): Option<Opcode>
  {
    match code
    case 0x60 => Some(ALIAS)
    case 0x61 => Some(UNDEF)
    case 0x62 => Some(SCLASS)
    case 0x63 => Some(TCLASS)
    case 0x64 => Some(DEBUG)
    case 0x65 => Some(ERR)
    case 0x66 => Some(EXT1)
    case 0x67 => Some(EXT2)
    case 0x68 => Some(EXT3)
    case 0x69 => Some(STOP)
    case _ => None
  }
  /** Highest code in the table. */
  const LastCode: nat := 0x69

  /**
   * The operand bytes consumed after the opcode byte, or None for the shape the
   * decoder has no case for.
   */
  function OperandWidth(s: Shape): (w: Option<nat>)
    ensures w.None? <==> s == S
    ensures w.Some? ==> w.value <= 5
  {
    match s
    case Z => Some(0)
    case B => Some(1)
    case BB => Some(2)
    case BBB => Some(3)
    case BS => Some(3)
    case BSS => Some(5)
    case W => Some(2)
    case S => None
  }

  /** Codes are unique: looking up an entry's code yields that entry. */
  lemma CodeLookup(op: Opcode)
    ensures OpOf(Code(op)) == Some(op)
  {
    match op
    case NOP | MOVE | LOADL | LOADI | LOADINEG | LOADI__1 | LOADI_0 | LOADI_1 | LOADI_2
      | LOADI_3 | LOADI_4 | LOADI_5 | LOADI_6 | LOADI_7 | LOADI16 | LOADI32 =>
      LookupRow00(op);
    case LOADSYM | LOADNIL | LOADSELF | LOADT | LOADF | GETGV | SETGV | GETSV | SETSV | GETIV
      | SETIV | GETCV | SETCV | GETCONST | SETCONST | GETMCNST =>
      LookupRow10(op);
    case SETMCNST | GETUPVAR | SETUPVAR | GETIDX | SETIDX | JMP | JMPIF | JMPNOT | JMPNIL
      | JMPUW | EXCEPT | RESCUE | RAISEIF | SSEND | SSENDB | SEND =>
      LookupRow20(op);
    case SENDB | CALL | SUPER | ARGARY | ENTER | KEY_P | KEYEND | KARG | RETURN | RETURN_BLK
      | BREAK | BLKPUSH | ADD | ADDI | SUB | SUBI =>
      LookupRow30(op);
    case MUL | DIV | EQ | LT | LE | GT | GE | ARRAY | ARRAY2 | ARYCAT | ARYPUSH | ARYDUP | AREF
      | ASET | APOST | INTERN =>
      LookupRow40(op);
    case SYMBOL | STRING | STRCAT | HASH | HASHADD | HASHCAT | LAMBDA | BLOCK | METHOD
      | RANGE_INC | RANGE_EXC | OCLASS | CLASS | MODULE | EXEC | DEF =>
      LookupRow50(op);
    case ALIAS | UNDEF | SCLASS | TCLASS | DEBUG | ERR | EXT1 | EXT2 | EXT3 | STOP =>
      LookupRow60(op);
  }

  lemma LookupRow00(op: Opcode)
    requires op.NOP? || op.MOVE? || op.LOADL? || op.LOADI? || op.LOADINEG? || op.LOADI__1?
      || op.LOADI_0? || op.LOADI_1? || op.LOADI_2? || op.LOADI_3? || op.LOADI_4?
      || op.LOADI_5? || op.LOADI_6? || op.LOADI_7? || op.LOADI16? || op.LOADI32?
    ensures OpOf(Code(op)) == Some(op)
  {
    match op
    case NOP => Entry00();
    case MOVE => Entry01();
    case LOADL => Entry02();
    case LOADI => Entry03();
    case LOADINEG => Entry04();
    case LOADI__1 => Entry05();
    case LOADI_0 => Entry06();
    case LOADI_1 => Entry07();
    case LOADI_2 => Entry08();
    case LOADI_3 => Entry09();
    case LOADI_4 => Entry0A();
    case LOADI_5 => Entry0B();
    case LOADI_6 => Entry0C();
    case LOADI_7 => Entry0D();
    case LOADI16 => Entry0E();
    case LOADI32 => Entry0F();
  }

  lemma LookupRow10(op: Opcode)
    requires op.LOADSYM? || op.LOADNIL? || op.LOADSELF? || op.LOADT? || op.LOADF? || op.GETGV?
      || op.SETGV? || op.GETSV? || op.SETSV? || op.GETIV? || op.SETIV? || op.GETCV?
      || op.SETCV? || op.GETCONST? || op.SETCONST? || op.GETMCNST?
    ensures OpOf(Code(op)) == Some(op)
  {
    match op
    case LOADSYM => Entry10();
    case LOADNIL => Entry11();
    case LOADSELF => Entry12();
    case LOADT => Entry13();
    case LOADF => Entry14();
    case GETGV => Entry15();
    case SETGV => Entry16();
    case GETSV => Entry17();
    case SETSV => Entry18();
    case GETIV => Entry19();
    case SETIV => Entry1A();
    case GETCV => Entry1B();
    case SETCV => Entry1C();
    case GETCONST => Entry1D();
    case SETCONST => Entry1E();
    case GETMCNST => Entry1F();
  }

  lemma LookupRow20(op: Opcode)
    requires op.SETMCNST? || op.GETUPVAR? || op.SETUPVAR? || op.GETIDX? || op.SETIDX? || op.JMP?
      || op.JMPIF? || op.JMPNOT? || op.JMPNIL? || op.JMPUW? || op.EXCEPT? || op.RESCUE?
      || op.RAISEIF? || op.SSEND? || op.SSENDB? || op.SEND?
    ensures OpOf(Code(op)) == Some(op)
  {
    match op
    case SETMCNST => Entry20();
    case GETUPVAR => Entry21();
    case SETUPVAR => Entry22();
    case GETIDX => Entry23();
    case SETIDX => Entry24();
    case JMP => Entry25();
    case JMPIF => Entry26();
    case JMPNOT => Entry27();
    case JMPNIL => Entry28();
    case JMPUW => Entry29();
    case EXCEPT => Entry2A();
    case RESCUE => Entry2B();
    case RAISEIF => Entry2C();
    case SSEND => Entry2D();
    case SSENDB => Entry2E();
    case SEND => Entry2F();
  }

  lemma LookupRow30(op: Opcode)
    requires op.SENDB? || op.CALL? || op.SUPER? || op.ARGARY? || op.ENTER? || op.KEY_P?
      || op.KEYEND? || op.KARG? || op.RETURN? || op.RETURN_BLK? || op.BREAK? || op.BLKPUSH?
      || op.ADD? || op.ADDI? || op.SUB? || op.SUBI?
    ensures OpOf(Code(op)) == Some(op)
  {
    match op
    case SENDB => Entry30();
    case CALL => Entry31();
    case SUPER => Entry32();
    case ARGARY => Entry33();
    case ENTER => Entry34();
    case KEY_P => Entry35();
    case KEYEND => Entry36();
    case KARG => Entry37();
    case RETURN => Entry38();
    case RETURN_BLK => Entry39();
    case BREAK => Entry3A();
    case BLKPUSH => Entry3B();
    case ADD => Entry3C();
    case ADDI => Entry3D();
    case SUB => Entry3E();
    case SUBI => Entry3F();
  }

  lemma LookupRow40(op: Opcode)
    requires op.MUL? || op.DIV? || op.EQ? || op.LT? || op.LE? || op.GT? || op.GE? || op.ARRAY?
      || op.ARRAY2? || op.ARYCAT? || op.ARYPUSH? || op.ARYDUP? || op.AREF? || op.ASET?
      || op.APOST? || op.INTERN?
    ensures OpOf(Code(op)) == Some(op)
  {
    match op
    case MUL => Entry40();
    case DIV => Entry41();
    case EQ => Entry42();
    case LT => Entry43();
    case LE => Entry44();
    case GT => Entry45();
    case GE => Entry46();
    case ARRAY => Entry47();
    case ARRAY2 => Entry48();
    case ARYCAT => Entry49();
    case ARYPUSH => Entry4A();
    case ARYDUP => Entry4B();
    case AREF => Entry4C();
    case ASET => Entry4D();
    case APOST => Entry4E();
    case INTERN => Entry4F();
  }

  lemma LookupRow50(op: Opcode)
    requires op.SYMBOL? || op.STRING? || op.STRCAT? || op.HASH? || op.HASHADD? || op.HASHCAT?
      || op.LAMBDA? || op.BLOCK? || op.METHOD? || op.RANGE_INC? || op.RANGE_EXC?
      || op.OCLASS? || op.CLASS? || op.MODULE? || op.EXEC? || op.DEF?
    ensures OpOf(Code(op)) == Some(op)
  {
    match op
    case SYMBOL => Entry50();
    case STRING => Entry51();
    case STRCAT => Entry52();
    case HASH => Entry53();
    case HASHADD => Entry54();
    case HASHCAT => Entry55();
    case LAMBDA => Entry56();
    case BLOCK => Entry57();
    case METHOD => Entry58();
    case RANGE_INC => Entry59();
    case RANGE_EXC => Entry5A();
    case OCLASS => Entry5B();
    case CLASS => Entry5C();
    case MODULE => Entry5D();
    case EXEC => Entry5E();
    case DEF => Entry5F();
  }

  lemma LookupRow60(op: Opcode)
    requires op.ALIAS? || op.UNDEF? || op.SCLASS? || op.TCLASS? || op.DEBUG? || op.ERR? || op.EXT1?
      || op.EXT2? || op.EXT3? || op.STOP?
    ensures OpOf(Code(op)) == Some(op)
  {
    match op
    case ALIAS => Entry60();
    case UNDEF => Entry61();
    case SCLASS => Entry62();
    case TCLASS => Entry63();
    case DEBUG => Entry64();
    case ERR => Entry65();
    case EXT1 => Entry66();
    case EXT2 => Entry67();
    case EXT3 => Entry68();
    case STOP => Entry69();
  }

  /** Codes are contiguous: exactly the codes 0..LastCode have an entry, and the entry keyed by k has code k. */
  lemma TableDense(k: nat)
    ensures OpOf(k).Some? <==> k <= LastCode
    ensures OpOf(k).Some? ==> Code(OpOf(k).value) == k
  {
    if k <= 0x0F { DenseRow00(k);
    } else if k <= 0x1F { DenseRow10(k);
    } else if k <= 0x2F { DenseRow20(k);
    } else if k <= 0x3F { DenseRow30(k);
    } else if k <= 0x4F { DenseRow40(k);
    } else if k <= 0x5F { DenseRow50(k);
    } else if k <= 0x69 { DenseRow60(k);
    }
  }

  lemma DenseRow00(k: nat)
    requires 0x00 <= k <= 0x0F
    ensures OpOf(k).Some? && Code(OpOf(k).value) == k
  {
    if k == 0x00 { Entry00();
    } else if k == 0x01 { Entry01();
    } else if k == 0x02 { Entry02();
    } else if k == 0x03 { Entry03();
    } else if k == 0x04 { Entry04();
    } else if k == 0x05 { Entry05();
    } else if k == 0x06 { Entry06();
    } else if k == 0x07 { Entry07();
    } else if k == 0x08 { Entry08();
    } else if k == 0x09 { Entry09();
    } else if k == 0x0A { Entry0A();
    } else if k == 0x0B { Entry0B();
    } else if k == 0x0C { Entry0C();
    } else if k == 0x0D { Entry0D();
    } else if k == 0x0E { Entry0E();
    } else { Entry0F();
    }
  }

  lemma DenseRow10(k: nat)
    requires 0x10 <= k <= 0x1F
    ensures OpOf(k).Some? && Code(OpOf(k).value) == k
  {
    if k == 0x10 { Entry10();
    } else if k == 0x11 { Entry11();
    } else if k == 0x12 { Entry12();
    } else if k == 0x13 { Entry13();
    } else if k == 0x14 { Entry14();
    } else if k == 0x15 { Entry15();
    } else if k == 0x16 { Entry16();
    } else if k == 0x17 { Entry17();
    } else if k == 0x18 { Entry18();
    } else if k == 0x19 { Entry19();
    } else if k == 0x1A { Entry1A();
    } else if k == 0x1B { Entry1B();
    } else if k == 0x1C { Entry1C();
    } else if k == 0x1D { Entry1D();
    } else if k == 0x1E { Entry1E();
    } else { Entry1F();
    }
  }

  lemma DenseRow20(k: nat)
    requires 0x20 <= k <= 0x2F
    ensures OpOf(k).Some? && Code(OpOf(k).value) == k
  {
    if k == 0x20 { Entry20();
    } else if k == 0x21 { Entry21();
    } else if k == 0x22 { Entry22();
    } else if k == 0x23 { Entry23();
    } else if k == 0x24 { Entry24();
    } else if k == 0x25 { Entry25();
    } else if k == 0x26 { Entry26();
    } else if k == 0x27 { Entry27();
    } else if k == 0x28 { Entry28();
    } else if k == 0x29 { Entry29();
    } else if k == 0x2A { Entry2A();
    } else if k == 0x2B { Entry2B();
    } else if k == 0x2C { Entry2C();
    } else if k == 0x2D { Entry2D();
    } else if k == 0x2E { Entry2E();
    } else { Entry2F();
    }
  }

  lemma DenseRow30(k: nat)
    requires 0x30 <= k <= 0x3F
    ensures OpOf(k).Some? && Code(OpOf(k).value) == k
  {
    if k == 0x30 { Entry30();
    } else if k == 0x31 { Entry31();
    } else if k == 0x32 { Entry32();
    } else if k == 0x33 { Entry33();
    } else if k == 0x34 { Entry34();
    } else if k == 0x35 { Entry35();
    } else if k == 0x36 { Entry36();
    } else if k == 0x37 { Entry37();
    } else if k == 0x38 { Entry38();
    } else if k == 0x39 { Entry39();
    } else if k == 0x3A { Entry3A();
    } else if k == 0x3B { Entry3B();
    } else if k == 0x3C { Entry3C();
    } else if k == 0x3D { Entry3D();
    } else if k == 0x3E { Entry3E();
    } else { Entry3F();
    }
  }

  lemma DenseRow40(k: nat)
    requires 0x40 <= k <= 0x4F
    ensures OpOf(k).Some? && Code(OpOf(k).value) == k
  {
    if k == 0x40 { Entry40();
    } else if k == 0x41 { Entry41();
    } else if k == 0x42 { Entry42();
    } else if k == 0x43 { Entry43();
    } else if k == 0x44 { Entry44();
    } else if k == 0x45 { Entry45();
    } else if k == 0x46 { Entry46();
    } else if k == 0x47 { Entry47();
    } else if k == 0x48 { Entry48();
    } else if k == 0x49 { Entry49();
    } else if k == 0x4A { Entry4A();
    } else if k == 0x4B { Entry4B();
    } else if k == 0x4C { Entry4C();
    } else if k == 0x4D { Entry4D();
    } else if k == 0x4E { Entry4E();
    } else { Entry4F();
    }
  }

  lemma DenseRow50(k: nat)
    requires 0x50 <= k <= 0x5F
    ensures OpOf(k).Some? && Code(OpOf(k).value) == k
  {
    if k == 0x50 { Entry50();
    } else if k == 0x51 { Entry51();
    } else if k == 0x52 { Entry52();
    } else if k == 0x53 { Entry53();
    } else if k == 0x54 { Entry54();
    } else if k == 0x55 { Entry55();
    } else if k == 0x56 { Entry56();
    } else if k == 0x57 { Entry57();
    } else if k == 0x58 { Entry58();
    } else if k == 0x59 { Entry59();
    } else if k == 0x5A { Entry5A();
    } else if k == 0x5B { Entry5B();
    } else if k == 0x5C { Entry5C();
    } else if k == 0x5D { Entry5D();
    } else if k == 0x5E { Entry5E();
    } else { Entry5F();
    }
  }

  lemma DenseRow60(k: nat)
    requires 0x60 <= k <= 0x69
    ensures OpOf(k).Some? && Code(OpOf(k).value) == k
  {
    if k == 0x60 { Entry60();
    } else if k == 0x61 { Entry61();
    } else if k == 0x62 { Entry62();
    } else if k == 0x63 { Entry63();
    } else if k == 0x64 { Entry64();
    } else if k == 0x65 { Entry65();
    } else if k == 0x66 { Entry66();
    } else if k == 0x67 { Entry67();
    } else if k == 0x68 { Entry68();
    } else { Entry69();
    }
  }

  // One table entry: its code keys it, and it carries that code.

  lemma Entry00()
    ensures OpOf(0x00) == Some(NOP) && Code(NOP) == 0x00
  {
  }

  lemma Entry01()
    ensures OpOf(0x01) == Some(MOVE) && Code(MOVE) == 0x01
  {
  }

  lemma Entry02()
    ensures OpOf(0x02) == Some(LOADL) && Code(LOADL) == 0x02
  {
  }

  lemma Entry03()
    ensures OpOf(0x03) == Some(LOADI) && Code(LOADI) == 0x03
  {
  }

  lemma Entry04()
    ensures OpOf(0x04) == Some(LOADINEG) && Code(LOADINEG) == 0x04
  {
  }

  lemma Entry05()
    ensures OpOf(0x05) == Some(LOADI__1) && Code(LOADI__1) == 0x05
  {
  }

  lemma Entry06()
    ensures OpOf(0x06) == Some(LOADI_0) && Code(LOADI_0) == 0x06
  {
  }

  lemma Entry07()
    ensures OpOf(0x07) == Some(LOADI_1) && Code(LOADI_1) == 0x07
  {
  }

  lemma Entry08()
    ensures OpOf(0x08) == Some(LOADI_2) && Code(LOADI_2) == 0x08
  {
  }

  lemma Entry09()
    ensures OpOf(0x09) == Some(LOADI_3) && Code(LOADI_3) == 0x09
  {
  }

  lemma Entry0A()
    ensures OpOf(0x0A) == Some(LOADI_4) && Code(LOADI_4) == 0x0A
  {
  }

  lemma Entry0B()
    ensures OpOf(0x0B) == Some(LOADI_5) && Code(LOADI_5) == 0x0B
  {
  }

  lemma Entry0C()
    ensures OpOf(0x0C) == Some(LOADI_6) && Code(LOADI_6) == 0x0C
  {
  }

  lemma Entry0D()
    ensures OpOf(0x0D) == Some(LOADI_7) && Code(LOADI_7) == 0x0D
  {
  }

  lemma Entry0E()
    ensures OpOf(0x0E) == Some(LOADI16) && Code(LOADI16) == 0x0E
  {
  }

  lemma Entry0F()
    ensures OpOf(0x0F) == Some(LOADI32) && Code(LOADI32) == 0x0F
  {
  }

  lemma Entry10()
    ensures OpOf(0x10) == Some(LOADSYM) && Code(LOADSYM) == 0x10
  {
  }

  lemma Entry11()
    ensures OpOf(0x11) == Some(LOADNIL) && Code(LOADNIL) == 0x11
  {
  }

  lemma Entry12()
    ensures OpOf(0x12) == Some(LOADSELF) && Code(LOADSELF) == 0x12
  {
  }

  lemma Entry13()
    ensures OpOf(0x13) == Some(LOADT) && Code(LOADT) == 0x13
  {
  }

  lemma Entry14()
    ensures OpOf(0x14) == Some(LOADF) && Code(LOADF) == 0x14
  {
  }

  lemma Entry15()
    ensures OpOf(0x15) == Some(GETGV) && Code(GETGV) == 0x15
  {
  }

  lemma Entry16()
    ensures OpOf(0x16) == Some(SETGV) && Code(SETGV) == 0x16
  {
  }

  lemma Entry17()
    ensures OpOf(0x17) == Some(GETSV) && Code(GETSV) == 0x17
  {
  }

  lemma Entry18()
    ensures OpOf(0x18) == Some(SETSV) && Code(SETSV) == 0x18
  {
  }

  lemma Entry19()
    ensures OpOf(0x19) == Some(GETIV) && Code(GETIV) == 0x19
  {
  }

  lemma Entry1A()
    ensures OpOf(0x1A) == Some(SETIV) && Code(SETIV) == 0x1A
  {
  }

  lemma Entry1B()
    ensures OpOf(0x1B) == Some(GETCV) && Code(GETCV) == 0x1B
  {
  }

  lemma Entry1C()
    ensures OpOf(0x1C) == Some(SETCV) && Code(SETCV) == 0x1C
  {
  }

  lemma Entry1D()
    ensures OpOf(0x1D) == Some(GETCONST) && Code(GETCONST) == 0x1D
  {
  }

  lemma Entry1E()
    ensures OpOf(0x1E) == Some(SETCONST) && Code(SETCONST) == 0x1E
  {
  }

  lemma Entry1F()
    ensures OpOf(0x1F) == Some(GETMCNST) && Code(GETMCNST) == 0x1F
  {
  }

  lemma Entry20()
    ensures OpOf(0x20) == Some(SETMCNST) && Code(SETMCNST) == 0x20
  {
  }

  lemma Entry21()
    ensures OpOf(0x21) == Some(GETUPVAR) && Code(GETUPVAR) == 0x21
  {
  }

  lemma Entry22()
    ensures OpOf(0x22) == Some(SETUPVAR) && Code(SETUPVAR) == 0x22
  {
  }

  lemma Entry23()
    ensures OpOf(0x23) == Some(GETIDX) && Code(GETIDX) == 0x23
  {
  }

  lemma Entry24()
    ensures OpOf(0x24) == Some(SETIDX) && Code(SETIDX) == 0x24
  {
  }

  lemma Entry25()
    ensures OpOf(0x25) == Some(JMP) && Code(JMP) == 0x25
  {
  }

  lemma Entry26()
    ensures OpOf(0x26) == Some(JMPIF) && Code(JMPIF) == 0x26
  {
  }

  lemma Entry27()
    ensures OpOf(0x27) == Some(JMPNOT) && Code(JMPNOT) == 0x27
  {
  }

  lemma Entry28()
    ensures OpOf(0x28) == Some(JMPNIL) && Code(JMPNIL) == 0x28
  {
  }

  lemma Entry29()
    ensures OpOf(0x29) == Some(JMPUW) && Code(JMPUW) == 0x29
  {
  }

  lemma Entry2A()
    ensures OpOf(0x2A) == Some(EXCEPT) && Code(EXCEPT) == 0x2A
  {
  }

  lemma Entry2B()
    ensures OpOf(0x2B) == Some(RESCUE) && Code(RESCUE) == 0x2B
  {
  }

  lemma Entry2C()
    ensures OpOf(0x2C) == Some(RAISEIF) && Code(RAISEIF) == 0x2C
  {
  }

  lemma Entry2D()
    ensures OpOf(0x2D) == Some(SSEND) && Code(SSEND) == 0x2D
  {
  }

  lemma Entry2E()
    ensures OpOf(0x2E) == Some(SSENDB) && Code(SSENDB) == 0x2E
  {
  }

  lemma Entry2F()
    ensures OpOf(0x2F) == Some(SEND) && Code(SEND) == 0x2F
  {
  }

  lemma Entry30()
    ensures OpOf(0x30) == Some(SENDB) && Code(SENDB) == 0x30
  {
  }

  lemma Entry31()
    ensures OpOf(0x31) == Some(CALL) && Code(CALL) == 0x31
  {
  }

  lemma Entry32()
    ensures OpOf(0x32) == Some(SUPER) && Code(SUPER) == 0x32
  {
  }

  lemma Entry33()
    ensures OpOf(0x33) == Some(ARGARY) && Code(ARGARY) == 0x33
  {
  }

  lemma Entry34()
    ensures OpOf(0x34) == Some(ENTER) && Code(ENTER) == 0x34
  {
  }

  lemma Entry35()
    ensures OpOf(0x35) == Some(KEY_P) && Code(KEY_P) == 0x35
  {
  }

  lemma Entry36()
    ensures OpOf(0x36) == Some(KEYEND) && Code(KEYEND) == 0x36
  {
  }

  lemma Entry37()
    ensures OpOf(0x37) == Some(KARG) && Code(KARG) == 0x37
  {
  }

  lemma Entry38()
    ensures OpOf(0x38) == Some(RETURN) && Code(RETURN) == 0x38
  {
  }

  lemma Entry39()
    ensures OpOf(0x39) == Some(RETURN_BLK) && Code(RETURN_BLK) == 0x39
  {
  }

  lemma Entry3A()
    ensures OpOf(0x3A) == Some(BREAK) && Code(BREAK) == 0x3A
  {
  }

  lemma Entry3B()
    ensures OpOf(0x3B) == Some(BLKPUSH) && Code(BLKPUSH) == 0x3B
  {
  }

  lemma Entry3C()
    ensures OpOf(0x3C) == Some(ADD) && Code(ADD) == 0x3C
  {
  }

  lemma Entry3D()
    ensures OpOf(0x3D) == Some(ADDI) && Code(ADDI) == 0x3D
  {
  }

  lemma Entry3E()
    ensures OpOf(0x3E) == Some(SUB) && Code(SUB) == 0x3E
  {
  }

  lemma Entry3F()
    ensures OpOf(0x3F) == Some(SUBI) && Code(SUBI) == 0x3F
  {
  }

  lemma Entry40()
    ensures OpOf(0x40) == Some(MUL) && Code(MUL) == 0x40
  {
  }

  lemma Entry41()
    ensures OpOf(0x41) == Some(DIV) && Code(DIV) == 0x41
  {
  }

  lemma Entry42()
    ensures OpOf(0x42) == Some(EQ) && Code(EQ) == 0x42
  {
  }

  lemma Entry43()
    ensures OpOf(0x43) == Some(LT) && Code(LT) == 0x43
  {
  }

  lemma Entry44()
    ensures OpOf(0x44) == Some(LE) && Code(LE) == 0x44
  {
  }

  lemma Entry45()
    ensures OpOf(0x45) == Some(GT) && Code(GT) == 0x45
  {
  }

  lemma Entry46()
    ensures OpOf(0x46) == Some(GE) && Code(GE) == 0x46
  {
  }

  lemma Entry47()
    ensures OpOf(0x47) == Some(ARRAY) && Code(ARRAY) == 0x47
  {
  }

  lemma Entry48()
    ensures OpOf(0x48) == Some(ARRAY2) && Code(ARRAY2) == 0x48
  {
  }

  lemma Entry49()
    ensures OpOf(0x49) == Some(ARYCAT) && Code(ARYCAT) == 0x49
  {
  }

  lemma Entry4A()
    ensures OpOf(0x4A) == Some(ARYPUSH) && Code(ARYPUSH) == 0x4A
  {
  }

  lemma Entry4B()
    ensures OpOf(0x4B) == Some(ARYDUP) && Code(ARYDUP) == 0x4B
  {
  }

  lemma Entry4C()
    ensures OpOf(0x4C) == Some(AREF) && Code(AREF) == 0x4C
  {
  }

  lemma Entry4D()
    ensures OpOf(0x4D) == Some(ASET) && Code(ASET) == 0x4D
  {
  }

  lemma Entry4E()
    ensures OpOf(0x4E) == Some(APOST) && Code(APOST) == 0x4E
  {
  }

  lemma Entry4F()
    ensures OpOf(0x4F) == Some(INTERN) && Code(INTERN) == 0x4F
  {
  }

  lemma Entry50()
    ensures OpOf(0x50) == Some(SYMBOL) && Code(SYMBOL) == 0x50
  {
  }

  lemma Entry51()
    ensures OpOf(0x51) == Some(STRING) && Code(STRING) == 0x51
  {
  }

  lemma Entry52()
    ensures OpOf(0x52) == Some(STRCAT) && Code(STRCAT) == 0x52
  {
  }

  lemma Entry53()
    ensures OpOf(0x53) == Some(HASH) && Code(HASH) == 0x53
  {
  }

  lemma Entry54()
    ensures OpOf(0x54) == Some(HASHADD) && Code(HASHADD) == 0x54
  {
  }

  lemma Entry55()
    ensures OpOf(0x55) == Some(HASHCAT) && Code(HASHCAT) == 0x55
  {
  }

  lemma Entry56()
    ensures OpOf(0x56) == Some(LAMBDA) && Code(LAMBDA) == 0x56
  {
  }

  lemma Entry57()
    ensures OpOf(0x57) == Some(BLOCK) && Code(BLOCK) == 0x57
  {
  }

  lemma Entry58()
    ensures OpOf(0x58) == Some(METHOD) && Code(METHOD) == 0x58
  {
  }

  lemma Entry59()
    ensures OpOf(0x59) == Some(RANGE_INC) && Code(RANGE_INC) == 0x59
  {
  }

  lemma Entry5A()
    ensures OpOf(0x5A) == Some(RANGE_EXC) && Code(RANGE_EXC) == 0x5A
  {
  }

  lemma Entry5B()
    ensures OpOf(0x5B) == Some(OCLASS) && Code(OCLASS) == 0x5B
  {
  }

  lemma Entry5C()
    ensures OpOf(0x5C) == Some(CLASS) && Code(CLASS) == 0x5C
  {
  }

  lemma Entry5D()
    ensures OpOf(0x5D) == Some(MODULE) && Code(MODULE) == 0x5D
  {
  }

  lemma Entry5E()
    ensures OpOf(0x5E) == Some(EXEC) && Code(EXEC) == 0x5E
  {
  }

  lemma Entry5F()
    ensures OpOf(0x5F) == Some(DEF) && Code(DEF) == 0x5F
  {
  }

  lemma Entry60()
    ensures OpOf(0x60) == Some(ALIAS) && Code(ALIAS) == 0x60
  {
  }

  lemma Entry61()
    ensures OpOf(0x61) == Some(UNDEF) && Code(UNDEF) == 0x61
  {
  }

  lemma Entry62()
    ensures OpOf(0x62) == Some(SCLASS) && Code(SCLASS) == 0x62
  {
  }

  lemma Entry63()
    ensures OpOf(0x63) == Some(TCLASS) && Code(TCLASS) == 0x63
  {
  }

  lemma Entry64()
    ensures OpOf(0x64) == Some(DEBUG) && Code(DEBUG) == 0x64
  {
  }

  lemma Entry65()
    ensures OpOf(0x65) == Some(ERR) && Code(ERR) == 0x65
  {
  }

  lemma Entry66()
    ensures OpOf(0x66) == Some(EXT1) && Code(EXT1) == 0x66
  {
  }

  lemma Entry67()
    ensures OpOf(0x67) == Some(EXT2) && Code(EXT2) == 0x67
  {
  }

  lemma Entry68()
    ensures OpOf(0x68) == Some(EXT3) && Code(EXT3) == 0x68
  {
  }

  lemma Entry69()
    ensures OpOf(0x69) == Some(STOP) && Code(STOP) == 0x69
  {
  }

  /** The two jump opcodes are the only entries whose shape cannot be decoded. */
  lemma UndecodableShapes(op: Opcode)
    ensures OperandWidth(ShapeOf(op)).None? <==> op == JMP || op == JMPUW
  {
  }
}
