# mruby-ruby in Dafny

A model of the three parts of mruby-ruby, an mruby bytecode interpreter written in Ruby.

- **Loader.** It reads a compiled RITE image: a 20-byte header, then sections. An IREP section holds a tree of instruction records ("ireps"). Each record has:
  - a 16-byte header;
  - an instruction stream;
  - a literal pool and a symbol table;
  - its child records.
- **Object model.** Every mruby value is an `MObj`. It has a class, instance variables and a lazily made singleton class.
  - Classes are objects too. Their `name`, `superclass` and `instance_methods` are instance variables.
  - Method lookup searches the receiver's singleton class first, then its class and that class's superclasses.
- **Interpreter.** It runs the top-level records of a loaded image over one shared, growable register file.

Files:

- base.dfy (module `Base`): `byte`, `Option`, `Result`
- opcodes.dfy (module `Opcodes`): the opcode table (106 entries, codes 0x00–0x69) and the operand shapes
- mrb.dfy (module `Mrb`): decoded values: `Instr(op, a, b, c)`, `Rep`, `Image`
- wire.dfy (module `Wire`): the `unpack` directives used: `S>`, `S`, `I>`, `Z<n>`
- format.dfy (module `Format`): the loader as pure functions of the input bytes and an offset
- parser.dfy (module `MrbParser`): class `Parser`: the loader, with the BSS operand reading corrected (see Findings), proved against `Format`
- roundtrip.dfy (module `RoundTrip`): encoders, and lemmas that the loader reads back what they write
- runtime.dfy (module `ObjectModel`): the object heap (class `Space`) and class `Runtime`
- vm.dfy (module `Interpreter`): class `Vm`, proved against the step function `Exec`

How the model is built:

- **Loader.** The cursor `@cur` is a field of `Parser` that every `Read` advances. Each parsing method is proved to agree with a position-indexed function in `Format`: same result, same final cursor.
  - The source loader decodes every field but builds no value: the decoded fields only go to `p`, and `parse` returns nil.
  - The model's methods return what they decode, as `Image`, `Rep` and `Instr` values. These have the shape `vm.rb` reads (`reps`, `iseqs`, `pool`, `syms`). On an image read as raw bytes, the bytes consumed and where the loader fails are the source's. The exceptions are listed under "## Left out": truncated input, multibyte characters and the corrected BSS reading.
- **Object model.** Objects are identified by handle into one sequence of `MObj` values (the `Space`). The builtin classes and the true/false/nil objects are shared, as the source's constants are.
  - A lookup terminates because every superclass reference points to an object made earlier. `Linked` states this invariant and every heap-changing method keeps it.
- **Interpreter.** The register file is a `seq` that `Write` reassigns and grows. The host's `self.__send__` is a parameter of type `Host`.

## Model

| member | source | states |
|---|---|---|
| Wire.BE16Bytes | lib/mruby-ruby/mrb/parser.rb:201 | two bytes that an `S>` field reads back as the value |
| Wire.BE32Bytes | lib/mruby-ruby/mrb/parser.rb:153 | four bytes that an `I>` field reads back as the value |
| Wire.ZStringPrefix | lib/mruby-ruby/mrb/parser.rb:215 | `Z<n>` keeps exactly the bytes before the first NUL, each read as its character; a short result was cut at a NUL |
| Wire.ZStringWhole | lib/mruby-ruby/mrb/parser.rb:229 | a field without a NUL decodes to all of its characters |
| Wire.StrBytes | lib/mruby-ruby/mrb/parser.rb:229 | the bytes of a NUL-free string: same length, non-NUL, each the character's byte |
| Wire.ZStringOfStrBytes | lib/mruby-ruby/mrb/parser.rb:229 | `Z<n>` over a string's own bytes gives the string back |
| Opcodes.Code | lib/mruby-ruby/mrb/parser.rb:5-111 | every entry's code is at most 0x69 |
| Opcodes.OperandWidth | lib/mruby-ruby/mrb/parser.rb:173-195 | every shape has an operand width of at most 5 bytes except S, the one shape the decoder has no case for |
| Opcodes.CodeLookup | lib/mruby-ruby/mrb/parser.rb:113 | codes are unique: looking up an entry's code yields that entry |
| Opcodes.TableDense | lib/mruby-ruby/mrb/parser.rb:5-113 | exactly the codes 0..0x69 have an entry, and the entry found at k has code k |
| Opcodes.UndecodableShapes | lib/mruby-ruby/mrb/parser.rb:43-47 | JMP and JMPUW are the only entries whose shape cannot be decoded |
| Format.HeaderCheck | lib/mruby-ruby/mrb/parser.rb:122-125 | the header takes exactly 20 bytes; with 20 bytes present it is accepted iff its first four bytes are "RITE"; with fewer the model reports truncation (the source may go on, see Left out) |
| Format.HeaderAccepted | lib/mruby-ruby/mrb/parser.rb:122-125 | a header that starts with "RITE" is accepted and carries the two version fields |
| Format.InstrAt | lib/mruby-ruby/mrb/parser.rb:171-196 | a decoded instruction has a decodable shape and took 1 + its operand width bytes |
| Format.InstrErrors | lib/mruby-ruby/mrb/parser.rb:172-195 | an opcode byte above 0x69 fails as unknown, JMP/JMPUW fail as unsupported, and a decoded opcode is the table's entry for its byte |
| Format.IseqsAt | lib/mruby-ruby/mrb/parser.rb:168-198 | the instruction loop never moves the cursor backward or past the input |
| Format.IseqsAtStops | lib/mruby-ruby/mrb/parser.rb:168-170 | the loop stops at the first instruction boundary at or past start + ilen: it consumed exactly the stream's bytes and its last instruction began before that point; the stream is empty iff the loop began at or past it |
| Format.IseqsAtCons | lib/mruby-ruby/mrb/parser.rb:169-197 | one more turn of the loop puts the instruction in front of the rest of the stream |
| Format.LiteralAt | lib/mruby-ruby/mrb/parser.rb:204-220 | a pool entry is accepted only with tag 0 and consumes 3 + len + 1 bytes; any other tag fails |
| Format.LiteralsAt | lib/mruby-ruby/mrb/parser.rb:203-221 | k entries read give exactly k strings |
| Format.LiteralsAtCons | lib/mruby-ruby/mrb/parser.rb:203-221 | one entry, then k - 1 more, is the k entries in order |
| Format.PoolAt | lib/mruby-ruby/mrb/parser.rb:200-222 | the pool holds as many strings as its 2-byte big-endian count says |
| Format.SymbolAt | lib/mruby-ruby/mrb/parser.rb:228-231 | a symbol consumes 2 + len + 1 bytes |
| Format.SymbolsAt | lib/mruby-ruby/mrb/parser.rb:227-232 | k symbols read give exactly k names |
| Format.SymbolsAtCons | lib/mruby-ruby/mrb/parser.rb:227-232 | one symbol, then k - 1 more, is the k symbols in order |
| Format.SymsAt | lib/mruby-ruby/mrb/parser.rb:224-233 | the symbol table holds as many names as its 2-byte big-endian count says |
| Format.IrepAt | lib/mruby-ruby/mrb/parser.rb:148-166 | a record takes at least its 16 header bytes and stays inside the input |
| Format.IrepHeader | lib/mruby-ruby/mrb/parser.rb:153 | nlocals, nregs, the child count and clen come from big-endian fields at offsets 4, 6, 8 and 10 of the 16-byte header |
| Format.IrepAtCompose | lib/mruby-ruby/mrb/parser.rb:153-165 | header, instruction stream, pool, symbols and then exactly rlen children, in that order, make the record |
| Format.IrepsAt | lib/mruby-ruby/mrb/parser.rb:162-165 | the child loop yields exactly k records |
| Format.IrepsAtStep | lib/mruby-ruby/mrb/parser.rb:162-165 | the child loop reads the first record, then the remaining k - 1 from where it ended; a failing first record fails the loop |
| Format.IrepsAtCons | lib/mruby-ruby/mrb/parser.rb:162-165 | a record followed by k - 1 more is the k records in order |
| Format.SectionAt | lib/mruby-ruby/mrb/parser.rb:129-144 | an LVAR section whose size bytes are present is accepted and skips exactly size bytes past its 8-byte head, and only LVAR skips; END takes 8 bytes; DBG fails as unsupported and any other type as unknown |
| Format.SectionAtIrep | lib/mruby-ruby/mrb/parser.rb:132-135 | an IREP section is type, size, a 4-byte version, then one record tree |
| Format.SectionsAtSkip | lib/mruby-ruby/mrb/parser.rb:128-137 | a skipped LVAR section contributes nothing: the section loop continues right after it |
| Format.SectionsAtEnd | lib/mruby-ruby/mrb/parser.rb:140-141 | an END section ends the loop with nothing more collected |
| Format.SectionsAtCons | lib/mruby-ruby/mrb/parser.rb:128-145 | an IREP section's tree comes first, then the trees of the sections after it |
| Format.ParseImageCompose | lib/mruby-ruby/mrb/parser.rb:120-146 | an accepted header followed by sections that read back gives the image |
| MrbParser.Parser.constructor | lib/mruby-ruby/mrb/parser.rb:115-118 | the cursor starts at 0 |
| MrbParser.Parser.Peek | lib/mruby-ruby/mrb/parser.rb:235-237 | the n bytes at the cursor, or a truncation error when fewer remain; the cursor does not move |
| MrbParser.Parser.Read | lib/mruby-ruby/mrb/parser.rb:239-241 | the n bytes at the cursor; the cursor advances by exactly n and never moves backward |
| MrbParser.Parser.AllRead | lib/mruby-ruby/mrb/parser.rb:243-245 | true iff the cursor has reached or passed the end |
| MrbParser.Parser.Parse | lib/mruby-ruby/mrb/parser.rb:120-146 | the result is `ParseImage` of the input |
| MrbParser.Parser.ParseSections | lib/mruby-ruby/mrb/parser.rb:128-145 | the `until all_read?` loop yields `SectionsAt` from the starting cursor |
| MrbParser.Parser.ReadSection | lib/mruby-ruby/mrb/parser.rb:129-144 | one section, with the result and final cursor of `SectionAt` |
| MrbParser.Parser.ParseIrep | lib/mruby-ruby/mrb/parser.rb:148-166 | result and final cursor of `IrepAt` |
| MrbParser.Parser.ParseChildren | lib/mruby-ruby/mrb/parser.rb:162-165 | result and final cursor of `IrepsAt` for k children |
| MrbParser.Parser.ReadChild | lib/mruby-ruby/mrb/parser.rb:163-164 | one pass of the child loop moves one record from still-to-come to read, and the cursor strictly advances |
| MrbParser.Parser.ParseIseqs | lib/mruby-ruby/mrb/parser.rb:168-198 | result and final cursor of `IseqsAt` |
| MrbParser.Parser.ReadInstr | lib/mruby-ruby/mrb/parser.rb:171-196 | result and final cursor of `InstrAt` |
| MrbParser.Parser.ParsePoolBlock | lib/mruby-ruby/mrb/parser.rb:200-222 | result and final cursor of `PoolAt` |
| MrbParser.Parser.ReadPoolEntry | lib/mruby-ruby/mrb/parser.rb:203-221 | one pass of the pool loop moves one literal from still-to-come to read |
| MrbParser.Parser.ReadLiteral | lib/mruby-ruby/mrb/parser.rb:204-220 | result and final cursor of `LiteralAt` |
| MrbParser.Parser.ParseSymsBlock | lib/mruby-ruby/mrb/parser.rb:224-233 | result and final cursor of `SymsAt` |
| MrbParser.Parser.ReadSymsEntry | lib/mruby-ruby/mrb/parser.rb:227-232 | one pass of the symbol loop moves one name from still-to-come to read |
| MrbParser.Parser.ReadSymbol | lib/mruby-ruby/mrb/parser.rb:228-231 | result and final cursor of `SymbolAt` |
| RoundTrip.OperandBytes | lib/mruby-ruby/mrb/parser.rb:173-191 | a shape's operand bytes, big-endian, are exactly that shape's operand width |
| RoundTrip.EncodeInstr | lib/mruby-ruby/mrb/parser.rb:171-191 | an encoded instruction is `InstrSize` bytes long, at least one |
| RoundTrip.DecodeOperandBytes | lib/mruby-ruby/mrb/parser.rb:173-191 | decoding a shape's operand bytes gives back the operands written |
| RoundTrip.InstrRoundTrip | lib/mruby-ruby/mrb/parser.rb:171-196 | an encoded instruction decodes to itself, with the cursor advanced by 1 + its operand width |
| RoundTrip.IseqRoundTrip | lib/mruby-ruby/mrb/parser.rb:168-198 | an encoded stream decodes back instruction for instruction when ilen covers it |
| RoundTrip.LiteralRoundTrip | lib/mruby-ruby/mrb/parser.rb:204-220 | an encoded pool entry reads back as its string |
| RoundTrip.LiteralsRoundTrip | lib/mruby-ruby/mrb/parser.rb:203-221 | encoded entries read back in order |
| RoundTrip.PoolRoundTrip | lib/mruby-ruby/mrb/parser.rb:200-222 | an encoded pool block reads back as its strings |
| RoundTrip.SymbolRoundTrip | lib/mruby-ruby/mrb/parser.rb:228-231 | an encoded symbol reads back as its name |
| RoundTrip.SymbolsRoundTrip | lib/mruby-ruby/mrb/parser.rb:227-232 | encoded symbols read back in order |
| RoundTrip.SymsRoundTrip | lib/mruby-ruby/mrb/parser.rb:224-233 | an encoded symbol table reads back as its names |
| RoundTrip.BssAsWrittenMisreads | lib/mruby-ruby/mrb/parser.rb:186-187 | with `CSS>` as written, a BSS group written as (0, 1, 0) reads back as (0, 256, 0) on a little-endian host |
| RoundTrip.BssRoundTrip | lib/mruby-ruby/mrb/parser.rb:186-187 | read all big-endian, every BSS operand group comes back as written |
| ObjectModel.SuperChain | lib/mruby-ruby/runtime.rb:161-170 | the chain the lookup loop walks starts at the class, strictly decreases, links each class to its superclass, and ends at a class without one |
| ObjectModel.BootClasses | lib/mruby-ruby/runtime.rb:50-74 | Object and Class both have class Class; Object's superclass is nil and Class's is Object; true, false and nil have no class |
| ObjectModel.BootChains | lib/mruby-ruby/runtime.rb:68-102 | the builtin chains end: Class then Object; Integer then Object; String alone, having no superclass ivar |
| ObjectModel.BootLinked | lib/mruby-ruby/runtime.rb:49-108 | the builtin heap satisfies the invariant that makes lookup terminate |
| ObjectModel.WithSingleton | lib/mruby-ruby/runtime.rb:15-27 | afterwards the object has a singleton class, and no other object changes |
| ObjectModel.SingletonFacts | lib/mruby-ruby/runtime.rb:15-27 | asking twice changes nothing; a new singleton has class Class, superclass Class, an empty table, and is named "(singleton of N)" for a class N, else "(singleton)" |
| ObjectModel.WithSingletonLinked | lib/mruby-ruby/runtime.rb:22-26 | making a singleton class keeps the heap linked |
| ObjectModel.LookupFirst | lib/mruby-ruby/runtime.rb:161-170 | a successful walk returns the entry of the first class on the chain that defines the name |
| ObjectModel.LookupFirstBeyond | lib/mruby-ruby/runtime.rb:165-168 | when the class itself lacks the name, a successful walk found it further up the chain |
| ObjectModel.LookupMiss | lib/mruby-ruby/runtime.rb:162-172 | a failed walk over tabled classes means no class on the chain defines the name, and the error is "method not found" |
| ObjectModel.LookupOrder | lib/mruby-ruby/runtime.rb:161-172 | the walk succeeds iff some class on the chain defines the name, returns the first definer's entry, and otherwise raises "method not found" |
| ObjectModel.LookupWithoutClass | lib/mruby-ruby/runtime.rb:104-108 | an object without a class finds exactly the names its singleton class defines |
| ObjectModel.Define | lib/mruby-ruby/runtime.rb:187-189 | the class's table maps the name to the method and keeps its other entries; every other object and ivar is unchanged |
| ObjectModel.DefineLinked | lib/mruby-ruby/runtime.rb:187-189 | defining a method keeps the heap linked |
| ObjectModel.LookupAfterDefine | lib/mruby-ruby/runtime.rb:155-189 | after defining m in class k, an instance of k whose singleton class lacked the name finds m, including when that singleton is k itself |
| ObjectModel.MNil | lib/mruby-ruby/runtime.rb:199-202 | always the one shared nil object, which has no class and no ivars |
| ObjectModel.MBool | lib/mruby-ruby/runtime.rb:204-211 | the shared true object iff b holds, else the shared false object |
| ObjectModel.FloorDiv | lib/mruby-ruby/runtime.rb:83 | Integer `/` rounds toward negative infinity, for either sign of the divisor |
| ObjectModel.FloorDivRounding | lib/mruby-ruby/runtime.rb:83 | -7 / 2 and 7 / -2 are -4, and -7 / -2 is 3 |
| ObjectModel.Repeat | lib/mruby-ruby/runtime.rb:82 | the host's `String#*`: s repeated n times is n times as long as s, starts with s and repeats with the length of s as its period |
| ObjectModel.IntArith | lib/mruby-ruby/runtime.rb:80-83 | Integer `+ - * /` apply the host operator to the two contents and box the result as one fresh Integer. It succeeds iff both contents are integers (and not `/` by zero), or the receiver's is a string and the operator is `+` with a string argument (concatenation) or `*` with a non-negative integer (repetition). Otherwise it fails with nothing changed: a zero divisor, a non-integer argument to an integer, a negative repeat count, a bad argument to `String#+`, or `-`, `/` or any operator on a content with no such host method |
| ObjectModel.StringContentArith | lib/mruby-ruby/runtime.rb:80-83 | on an Integer object holding "ab", `* 3` gives a fresh Integer holding "ababab", and `"a" + "b"` one holding "ab"; `* -1`, `-` and an integer receiver with a string argument raise |
| ObjectModel.IntArithAsWritten | lib/mruby-ruby/runtime.rb:80-83 | as written, Integer `+` always raises and the others behave as `IntArith` |
| ObjectModel.PlusAsWrittenRaises | lib/mruby-ruby/runtime.rb:80 | 1 + 2 raises as written, and gives a fresh Integer 3 once corrected |
| ObjectModel.Apply | lib/mruby-ruby/runtime.rb:150-153 | calling a found Integer arithmetic lambda needs exactly one argument and then computes `IntArith` |
| ObjectModel.Space.constructor | lib/mruby-ruby/runtime.rb:49-108 | the bootstrap (Object and Class made, then both given class Class) yields the builtin heap, linked |
| ObjectModel.Space.IvarGet | lib/mruby-ruby/runtime.rb:29-31 | the ivar's value, nil when unset |
| ObjectModel.Space.IvarSet | lib/mruby-ruby/runtime.rb:33-35 | only that ivar of that object changes |
| ObjectModel.Space.UnsafeSetClass | lib/mruby-ruby/runtime.rb:37-40 | only that object's class changes |
| ObjectModel.Space.SingletonClass | lib/mruby-ruby/runtime.rb:15-27 | the existing singleton class with nothing changed, or a new one appended and recorded on the object |
| ObjectModel.Space.CreateClass | lib/mruby-ruby/runtime.rb:175-181 | a new object of class Class named name, with an empty table, whose superclass is sup or Object; existing objects unchanged |
| ObjectModel.Space.DefineMethod | lib/mruby-ruby/runtime.rb:187-189 | the heap becomes `Define(…)`; a class without a table raises and nothing changes |
| ObjectModel.Space.MInt | lib/mruby-ruby/runtime.rb:213-216 | a fresh Integer whose content is n |
| ObjectModel.Space.MStr | lib/mruby-ruby/runtime.rb:218-221 | a fresh String whose content is s |
| ObjectModel.Space.MSym | lib/mruby-ruby/runtime.rb:223-226 | a fresh object whose content is s; its class Symbol is never defined |
| ObjectModel.Space.CallIntArith | lib/mruby-ruby/runtime.rb:80-83 | result and heap are those of `IntArith` |
| ObjectModel.Runtime.constructor | lib/mruby-ruby/runtime.rb:110-129 | no globals; constants Object, Class, Integer, String; a new `main` of class Object with its own singleton class |
| ObjectModel.Runtime.GvarGet | lib/mruby-ruby/runtime.rb:133-135 | the global's value, nil when unset |
| ObjectModel.Runtime.GvarSet | lib/mruby-ruby/runtime.rb:137-139 | only that global changes |
| ObjectModel.Runtime.ConstGet | lib/mruby-ruby/runtime.rb:142-144 | the constant's value, nil when unset |
| ObjectModel.Runtime.ConstSet | lib/mruby-ruby/runtime.rb:145-147 | only that constant changes; the builtin table is a separate value |
| ObjectModel.Runtime.LookupMethod | lib/mruby-ruby/runtime.rb:155-173 | makes the singleton class if need be, then returns `LookupFrom`: the singleton's own entry, else the class-chain walk |
| ObjectModel.Runtime.Invoke | lib/mruby-ruby/runtime.rb:150-153 | a lookup error is returned as is; otherwise the found method is applied to the receiver and arguments |
| Interpreter.Set | lib/mruby-ruby/vm.rb:33 | register i reads the new value, every other register reads as before, and the file grows to i + 1 when i was past its end |
| Interpreter.Args | lib/mruby-ruby/vm.rb:48 | the arguments are R[start], R[start+1], …: exactly len of them when the file is long enough, cut off where it ends, and none when start is at or past the end (`@regs[s, n]` is [] or nil, and `*nil` splats to nothing) |
| Interpreter.Intern | lib/mruby-ruby/vm.rb:56-58 | a string becomes the symbol of the same name; anything else raises |
| Interpreter.ExecHandled | lib/mruby-ruby/vm.rb:30-63 | a handled opcode never reports "Unknown opcode", and only STOP stops the record |
| Interpreter.ExecMove | lib/mruby-ruby/vm.rb:32-33 | `MOVE a b` writes R[b] into R[a] and changes no other register |
| Interpreter.ExecLoadImmediate | lib/mruby-ruby/vm.rb:36-39 | `LOADI a b` writes b and `LOADINEG a b` writes -b into R[a] only |
| Interpreter.ExecLoadConstant | lib/mruby-ruby/vm.rb:40-45 | `LOADI__1`, `LOADI_0`, `LOADI_1` write -1, 0, 1 into R[a] only |
| Interpreter.ExecPoolLoads | lib/mruby-ruby/vm.rb:34-35 | `LOADL a b` and `STRING a b` write pool[b] into R[a] only (nil past the pool) |
| Interpreter.ExecSymbol | lib/mruby-ruby/vm.rb:57-58 | `SYMBOL a b` writes the symbol named pool[b] into R[a] only, and raises past the pool |
| Interpreter.ExecIntern | lib/mruby-ruby/vm.rb:55-56 | `INTERN a` turns the string in R[a] into a symbol; any other value raises |
| Interpreter.ExecNopReturn | lib/mruby-ruby/vm.rb:30-31 | `NOP` and `RETURN` leave the registers as they were |
| Interpreter.ExecSend | lib/mruby-ruby/vm.rb:47-50 | `SSEND a b c` passes R[a+1..a+c] and selector syms[b] to the host and stores its answer in R[a] only; the arguments are none when R[a+1] is past the end of the file; a missing selector or a host that raises fails |
| Interpreter.ExecUnknown | lib/mruby-ruby/vm.rb:64-65 | an opcode raises "Unknown opcode" iff it has no branch |
| Interpreter.UnknownExamples | lib/mruby-ruby/vm.rb:64-65 | `LOADI_2`..`LOADI_7` and `ADD` raise "Unknown opcode" |
| Interpreter.RunIseqsAppend | lib/mruby-ruby/vm.rb:21-25 | running xs then ys is running xs and, unless it stopped or failed, ys from the registers xs left |
| Interpreter.StopSkipsRest | lib/mruby-ruby/vm.rb:62-63 | once STOP is reached, no later instruction of the record runs |
| Interpreter.RunRepsAppend | lib/mruby-ruby/vm.rb:11-15 | records share one register file: ys starts from the registers xs left |
| Interpreter.StopContinuesWithNextRecord | lib/mruby-ruby/vm.rb:11-26 | a STOP ends only its record; the next record starts from the registers at the STOP |
| Interpreter.Vm.constructor | lib/mruby-ruby/vm.rb:3-9 | the register file starts empty |
| Interpreter.Vm.Write | lib/mruby-ruby/vm.rb:33 | the registers become `Set(old, a, v)`; the current record is unchanged |
| Interpreter.Vm.EvalIseq | lib/mruby-ruby/vm.rb:28-67 | registers and answer (stopped or not, or the error) are those of `Exec` |
| Interpreter.Vm.EvalHandled | lib/mruby-ruby/vm.rb:30-63 | the branches for handled opcodes agree with `ExecHandled` |
| Interpreter.Vm.EvalSend | lib/mruby-ruby/vm.rb:47-50 | agrees with `ExecHandled` on `SSEND` |
| Interpreter.Vm.EvalIntern | lib/mruby-ruby/vm.rb:55-58 | agrees with `ExecHandled` on `INTERN` and `SYMBOL` |
| Interpreter.Vm.EvalRepOf | lib/mruby-ruby/vm.rb:19-26 | the record becomes current; registers or error are those of `EvalRep`, with STOP caught at the record's end |
| Interpreter.Vm.Run | lib/mruby-ruby/vm.rb:11-15 | registers or error are those of `RunReps` over the image's records in order |

## Left out

- MrbParser.Parser.Read: the source does not check for truncated input. `@bin[@cur, n]` gives a shorter string, or "" exactly at the end, and a short `unpack` gives nil fields without raising. The cursor advances by n either way. The model reports `TruncatedInput` instead and leaves the cursor where it was. Where the source then raises (a nil count or opcode, a slice starting past the end), both fail. In these cases the source ends the load normally and the model fails:
  - an input shorter than 20 bytes that starts with "RITE": the header's missing fields are nil, and the cursor is then at or past the end, so the section loop never runs;
  - a final "END\0" section with fewer than 8 bytes: its size is nil and the loop breaks;
  - an LVAR section whose size runs past the end of the input;
  - an image that ends right after the last symbol's body, without its NUL: `read(1, "C")` gives nil and the loop ends.
- MrbParser.Parser.Read: the model reads the image as raw bytes, as `File.binread` would. `Mrb.load_file` reads it with `File.read` (lib/mruby-ruby/mrb.rb:6), a string in the default external encoding, usually UTF-8. `peek` slices that string by character (parser.rb:236), while `all_read?` counts bytes (parser.rb:244). Any valid multibyte UTF-8 sequence in the image shifts the source's cursor, and the rest then misparses. A pool literal of length 2 with body C3 A9 ("é") is one example: `read(2, "Z2")` consumes 3 bytes. The model stays aligned on the byte layout.
- Format.InstrAt: BSS operands are read all big-endian (`BssOperands`), the corrected reading of lib/mruby-ruby/mrb/parser.rb:187 (see Findings). As written, the middle field is in host order.
- MrbParser.Parser.ReadInstr: agrees with `Format.InstrAt`, so it too reads BSS operands with the corrected big-endian reading.
- ObjectModel.Apply: evaluates Integer `+` with `IntArith`, the corrected reading of lib/mruby-ruby/runtime.rb:80 (see Findings). As written, `+` always raises.
- ObjectModel.Space.CallIntArith: computes `IntArith`, so Integer `+` is addition here, not the raise of runtime.rb:80.
- ObjectModel.Runtime.Invoke: applies found methods through `Apply`, so it inherits the corrected Integer `+`.
- ObjectModel.IntArith: a content can only be one of the model's `Val` kinds (nil, an object, a string, an integer, a method table). Host values such as floats or arrays, which the Integer lambdas would also hand to the host operator, cannot be stored, so their cases are not modelled.
- Logging: the loader's debug `p` output and the runtime's `@logger` are left out.
- The section size passed to `parse_irep`: the source uses it only for logging.
- Record, section and whole-image round trips: only the instruction stream, pool and symbol table are proved to read back what an encoder wrote.
- Header fields: `size`, `compiler` and `ver` are read (20 bytes consumed) but not kept, since nothing uses them.
- Absent operands in `Instr(op, a, b, c)` are 0, where Ruby's `unpack` would give nil. The interpreter never reads them for the opcodes it handles.
- I/O: the `puts` and `p` builtins, and `@stdout`/`@stderr` in `Runtime` and `Vm`.
- ObjectModel.Apply: only the Integer `+ - * /` lambdas are evaluated. Every other builtin returns `NotModelled`:
  - Object's `inspect`, `puts` and `p`;
  - Integer's `inspect` and comparisons (these box a boolean through `m_int`);
  - String's lambdas, which depend on host Ruby String methods;
  - blocks given to `define_mruby_method`.
- ObjectModel.Runtime.Invoke: the `inspect` lambda of main's singleton class takes one parameter but is called with two, so it would raise an arity error. It is modelled only as a `Builtin` entry.
- `Runtime.ivar_get` / `Runtime.ivar_set` (the class methods): they index an `MObj` with `[]`, which it does not have. The instance methods are modelled instead.
- ObjectModel.Space.IvarSet: a write to `superclass` must name nil or an object made earlier. This keeps the lookup walk finite, where the source accepts any value.
- ObjectModel.NewSingleton: a class name is interpolated as its string, or as "" when it is not a string. Other values' `to_s` is not modelled.
- Object identity of strings: `LOADL` stores the pool's own string object, while `STRING` stores a copy. With strings as values the two are indistinguishable, so aliasing through a register is not modelled.
- The host object `@self` and its `__send__`: the model takes a `Host` function from selector and arguments to a value, or to nothing when the host raises. The host is therefore stateless and deterministic: equal selectors and arguments always give equal answers, and nothing a call does shows up in later calls. A Ruby host with `gets`, `rand` or its own state does not behave that way. Symbols are a tagged string (`Sym`).
- Ruby `raise`: every error surfaces as an `Err` value carrying the reason. There is no message text.
- Opcodes in the table that `vm.rb` does not execute (jumps, arithmetic, arrays, classes, blocks, exceptions): they only reach "Unknown opcode".

## Findings

| source | as written | input that shows it | evidently intended | confidence | as-written member | corrected member |
|---|---|---|---|---|---|---|
| lib/mruby-ruby/mrb/parser.rb:187 | BSS operands are read with `CSS>`; `>` applies only to the last `S`, so the middle field is read in host order | LOADI32 with b = 1, written big-endian as 00 01, reads back as b = 256 on a little-endian host | `CS>S>`: all multi-byte fields big-endian, like every other shape | high (not executed) | RoundTrip.BssAsWrittenMisreads, Format.BssOperandsAsWritten | RoundTrip.BssRoundTrip, Format.BssOperands |
| lib/mruby-ruby/runtime.rb:80 | Integer `+` reads its receiver with `slf.ivar_get_get(:content)`, a method `MObj` does not define | `1 + 2` (receiver and argument both Integers) raises instead of returning 3 | `slf.ivar_get(:content)`, as in `-`, `*` and `/` | high (not executed) | ObjectModel.PlusAsWrittenRaises, ObjectModel.IntArithAsWritten | ObjectModel.IntArith, ObjectModel.PlusAsWrittenRaises |

The rest of the model uses the corrected readings:
- `Format.DecodeOperands` reads BSS groups with `BssOperands`;
- `Apply` and `Space.CallIntArith` evaluate Integer `+` as addition.
