/**
 * The object model of the runtime: every mruby value is an `MObj` with a class
 * reference, a table of instance variables and a lazily created singleton class.
 * Objects live in one shared heap (`Space`), addressed by handle, so that the
 * builtin classes are shared by every `Runtime`, as the source's constants are.
 * Classes are ordinary objects whose `name`, `superclass` and `instance_methods`
 * are instance variables.
 */
module ObjectModel {
  import opened Base

  /** A callable in a method table: one of the builtin lambdas, or a block given to `define_mruby_method`. */
  datatype Method = Builtin(owner: string, selector: string) | Block(id: nat)

  /** What an instance variable holds: nil, another object, a string, an integer or a method table. */
  datatype Val = Nil | Ref(h: nat) | Str(s: string) | Int(i: int) | Table(methods: map<string, Method>)

  /** One object: its class (`klass_obj`, nil for the true/false/nil objects), ivars, and singleton class once made. */
  datatype MObj = MObj(klass: Option<nat>, ivars: map<string, Val>, singleton: Option<nat>)

  /** The ways a lookup or a builtin call fails (each a Ruby exception in the source). */
  datatype RuntimeError =
    | MethodNotFound(name: string)
    | NoMethodTable(h: nat)
    | WrongArity(given: nat)
    | NotAnInteger(v: Val)
    | NotAString(v: Val)
    | NegativeArgument(n: int)
    | ZeroDivision
    | UndefinedHostMethod(name: string)
    | NotModelled(m: Method)

  // Handles of the objects made when the runtime is loaded.
  const OBJECT: nat := 0
  const CLASS: nat := 1
  const INTEGER: nat := 2
  const STRING: nat := 3
  const TRUE: nat := 4
  const FALSE: nat := 5
  const NIL: nat := 6
  const BUILTINS: nat := 7

  /** `ivar_get`: an unset instance variable reads as nil. */
  function Ivar(o: MObj, name: string): Val
  {
    if name in o.ivars then o.ivars[name] else Nil
  }

  /** The object's `instance_methods` table, when it has one. */
  function TableOf(o: MObj): Option<map<string, Method>>
  {
    match Ivar(o, "instance_methods")
    case Table(t) => Some(t)
    case _ => None
  }

  /** The class the `superclass` ivar names; nil or unset ends the chain. */
  function SuperOf(o: MObj): Option<nat>
  {
    match Ivar(o, "superclass")
    case Ref(s) => Some(s)
    case _ => None
  }

  /** A superclass link the lookup loop can follow from handle h: nil, or an object made before h. */
  predicate SuperBelow(v: Val, h: nat)
  {
    v.Nil? || (v.Ref? && v.h < h)
  }

  /** The references held by object h stay inside the heap, and its superclass was made before it. */
  predicate LinkedAt(objs: seq<MObj>, h: nat)
    requires h < |objs|
  {
    (objs[h].klass.Some? ==> objs[h].klass.value < |objs|)
    && (objs[h].singleton.Some? ==> objs[h].singleton.value < |objs|)
    && SuperBelow(Ivar(objs[h], "superclass"), h)
  }

  /** A heap holding the builtin objects in which every object is linked. */
  predicate Linked(objs: seq<MObj>)
  {
    |objs| >= BUILTINS && forall h | 0 <= h < |objs| :: LinkedAt(objs, h)
  }

  // ---------------------------------------------------------------------------
  // The builtin classes and objects

  /** The ivars of a class made with `name`, `superclass` and `instance_methods`. */
  function ClassIvars(name: string, sup: Val, t: map<string, Method>): map<string, Val>
  {
    map["name" := Str(name), "superclass" := sup, "instance_methods" := Table(t)]
  }

  /** The builtin lambdas of one class, keyed by selector. */
  function Builtins(owner: string, selectors: set<string>): map<string, Method>
  {
    map sel | sel in selectors :: Builtin(owner, sel)
  }

  const ARITH: set<string> := {"+", "-", "*", "/", ">", ">=", "<", "<="}

  /**
   * The heap once the runtime is loaded: Object (superclass nil), Class (superclass
   * Object), both of class Class; Integer (superclass Object); String, which has no
   * `superclass` ivar at all; and the true, false and nil objects, whose classes
   * TrueClass, FalseClass and NilClass are never defined, so their class is nil.
   */
  function BootObjects(): seq<MObj>
  {
    [ MObj(Some(CLASS), ClassIvars("Object", Nil, Builtins("Object", {"inspect", "puts", "p"})), None),
      MObj(Some(CLASS), ClassIvars("Class", Ref(OBJECT), map[]), None),
      MObj(Some(CLASS), ClassIvars("Integer", Ref(OBJECT), Builtins("Integer", ARITH + {"inspect"})), None),
      MObj(Some(CLASS), map["name" := Str("String"), "instance_methods" := Table(Builtins("String", ARITH))], None),
      MObj(None, map[], None),
      MObj(None, map[], None),
      MObj(None, map[], None) ]
  }

  /** Entry j of a chain is the superclass of entry j - 1, made before it. */
  predicate SuperLink(objs: seq<MObj>, c: seq<nat>, j: nat)
    requires 0 < j < |c| && c[j - 1] < |objs|
  {
    c[j] < c[j - 1] && SuperOf(objs[c[j - 1]]) == Some(c[j])
  }

  /**
   * The superclass chain from h: h itself, then each `superclass` in turn.  In a
   * linked heap it is finite: it strictly decreases and ends at a class whose
   * superclass is nil or unset.
   */
  function SuperChain(objs: seq<MObj>, h: nat): (c: seq<nat>)
    requires Linked(objs) && h < |objs|
    ensures |c| >= 1 && c[0] == h && forall j | 0 <= j < |c| :: c[j] <= h
    ensures forall j | 0 < j < |c| :: SuperLink(objs, c, j)
    ensures SuperOf(objs[c[|c| - 1]]).None?
    decreases h
  {
    assert LinkedAt(objs, h);
    match SuperOf(objs[h])
    case Some(s) =>
      var rest := SuperChain(objs, s);
      var c := [h] + rest;
      assert forall j | 0 < j < |c| :: SuperLink(objs, c, j) by {
        forall j | 0 < j < |c| ensures SuperLink(objs, c, j) {
          if j > 1 {
            assert SuperLink(objs, rest, j - 1);
          }
        }
      }
      c
    case None => [h]
  }

  /**
   * The bootstrap: Object and Class are both of class Class, Object's superclass
   * is nil and Class's is Object; the true, false and nil objects have no class.
   */
  lemma BootClasses()
    ensures BootObjects()[OBJECT].klass == Some(CLASS) && BootObjects()[CLASS].klass == Some(CLASS)
    ensures Ivar(BootObjects()[OBJECT], "superclass") == Nil
    ensures Ivar(BootObjects()[CLASS], "superclass") == Ref(OBJECT)
    ensures forall h | TRUE <= h <= NIL :: BootObjects()[h].klass.None?
  {
  }

  /**
   * The superclass chains of the builtin classes end: Class's is Class, Object;
   * Integer's is Integer, Object; String has no superclass ivar, so its chain is
   * String alone.
   */
  lemma BootChains()
    ensures Linked(BootObjects())
    ensures SuperChain(BootObjects(), CLASS) == [CLASS, OBJECT]
    ensures SuperChain(BootObjects(), INTEGER) == [INTEGER, OBJECT]
    ensures SuperChain(BootObjects(), STRING) == [STRING]
  {
    var b := BootObjects();
    BootLinked();
    assert SuperOf(b[OBJECT]).None? && SuperOf(b[STRING]).None?;
    assert SuperOf(b[CLASS]) == Some(OBJECT) && SuperOf(b[INTEGER]) == Some(OBJECT);
    assert SuperChain(b, OBJECT) == [OBJECT];
  }

  /** The bootstrap heap is linked. */
  lemma BootLinked()
    ensures Linked(BootObjects())
  {
    var b := BootObjects();
    forall h | 0 <= h < |b| ensures LinkedAt(b, h) {}
  }

  // ---------------------------------------------------------------------------
  // Singleton classes

  /** How a name ivar prints in a string: a string as itself, nil (and anything else) as "". */
  function NameText(v: Val): string
  {
    if v.Str? then v.s else ""
  }

  /**
   * The singleton class made for object h: of class Class, superclass Class, an
   * empty method table, named "(singleton of N)" when h is itself a class (its
   * class is Class) with name N, and "(singleton)" otherwise.
   */
  function NewSingleton(objs: seq<MObj>, h: nat): MObj
    requires h < |objs|
  {
    var of := if objs[h].klass == Some(CLASS) then " of " + NameText(Ivar(objs[h], "name")) else "";
    MObj(Some(CLASS), ClassIvars("(singleton" + of + ")", Ref(CLASS), map[]), None)
  }

  /** The heap after `mruby_singleton_class` on h: unchanged when h has one, else one new object linked from h. */
  function WithSingleton(objs: seq<MObj>, h: nat): (r: seq<MObj>)
    requires h < |objs|
    ensures |r| >= |objs| && r[h].singleton.Some?
    ensures forall j | 0 <= j < |objs| && j != h :: r[j] == objs[j]
    ensures r[h].klass == objs[h].klass && r[h].ivars == objs[h].ivars
  {
    if objs[h].singleton.Some? then objs
    else objs[h := objs[h].(singleton := Some(|objs|))] + [NewSingleton(objs, h)]
  }

  /**
   * Asking again gives the same class and changes nothing, and a first request
   * appends a class named after the receiver whose superclass is Class.
   */
  lemma SingletonFacts(objs: seq<MObj>, h: nat)
    requires h < |objs| && objs[h].singleton.None?
    ensures var r := WithSingleton(objs, h);
      WithSingleton(r, h) == r && r[h].singleton == Some(|objs|) && |r| == |objs| + 1
      && r[|objs|].klass == Some(CLASS) && Ivar(r[|objs|], "superclass") == Ref(CLASS)
      && TableOf(r[|objs|]) == Some(map[])
      && Ivar(r[|objs|], "name") == Str(if objs[h].klass == Some(CLASS)
                                         then "(singleton of " + NameText(Ivar(objs[h], "name")) + ")"
                                         else "(singleton)")
  {
    var r := WithSingleton(objs, h);
    assert r[|objs|] == NewSingleton(objs, h);
  }

  /** Making a singleton class keeps the heap linked. */
  lemma WithSingletonLinked(objs: seq<MObj>, h: nat)
    requires Linked(objs) && h < |objs|
    ensures Linked(WithSingleton(objs, h))
  {
    var r := WithSingleton(objs, h);
    forall j | 0 <= j < |r| ensures LinkedAt(r, j) {
      if j < |objs| {
        assert LinkedAt(objs, j);
      } else {
        assert r[j] == NewSingleton(objs, h);
      }
    }
  }

  // ---------------------------------------------------------------------------
  // Method lookup

  /**
   * The class-chain half of `lookup_mruby_method`: from cls, the first class whose
   * table has the name gives the method; a class without a table fails; running
   * off the end of the chain is "method not found".
   */
  function FindInChain(objs: seq<MObj>, cls: Option<nat>, name: string): Result<Method, RuntimeError>
    requires Linked(objs) && (cls.Some? ==> cls.value < |objs|)
    decreases if cls.Some? then cls.value + 1 else 0
  {
    match cls
    case None => Err(MethodNotFound(name))
    case Some(c) =>
      assert LinkedAt(objs, c);
      match TableOf(objs[c])
      case None => Err(NoMethodTable(c))
      case Some(t) => if name in t then Ok(t[name]) else FindInChain(objs, SuperOf(objs[c]), name)
  }

  /** `lookup_mruby_method` once h's singleton class exists: its table first, then h's class chain. */
  function LookupFrom(objs: seq<MObj>, h: nat, name: string): Result<Method, RuntimeError>
    requires Linked(objs) && h < |objs| && objs[h].singleton.Some?
  {
    assert LinkedAt(objs, h);
    var s := objs[h].singleton.value;
    match TableOf(objs[s])
    case None => Err(NoMethodTable(s))
    case Some(t) => if name in t then Ok(t[name]) else FindInChain(objs, objs[h].klass, name)
  }

  /** Class h has a method table holding the name. */
  predicate Defines(objs: seq<MObj>, h: nat, name: string)
    requires h < |objs|
  {
    TableOf(objs[h]).Some? && name in TableOf(objs[h]).value
  }

  /** Every class of the chain has a method table. */
  predicate AllTabled(objs: seq<MObj>, chain: seq<nat>)
  {
    forall j | 0 <= j < |chain| :: chain[j] < |objs| && TableOf(objs[chain[j]]).Some?
  }

  /** No class of the chain defines the name. */
  predicate NoneDefines(objs: seq<MObj>, chain: seq<nat>, name: string)
  {
    forall j | 0 <= j < |chain| :: chain[j] < |objs| ==> !Defines(objs, chain[j], name)
  }

  /** The witness that a search found the name in the first class of the chain that defines it. */
  predicate FirstDefiner(objs: seq<MObj>, chain: seq<nat>, name: string, m: Method)
  {
    exists j | 0 <= j < |chain| ::
      chain[j] < |objs| && Defines(objs, chain[j], name) && m == TableOf(objs[chain[j]]).value[name]
      && NoneDefines(objs, chain[..j], name)
  }

  /** A successful search returns the entry of the first class of the chain that defines the name. */
  lemma {:induction false} LookupFirst(objs: seq<MObj>, c: nat, name: string)
    requires Linked(objs) && c < |objs| && AllTabled(objs, SuperChain(objs, c))
    ensures var r := FindInChain(objs, Some(c), name);
      r.Ok? ==> FirstDefiner(objs, SuperChain(objs, c), name, r.value)
    decreases c, 1
  {
    var chain, r := SuperChain(objs, c), FindInChain(objs, Some(c), name);
    assert LinkedAt(objs, c) && chain[0] == c && TableOf(objs[chain[0]]).Some?;
    if r.Ok? {
      if Defines(objs, c, name) {
        assert chain[..0] == [];
        assert Defines(objs, chain[0], name) && r.value == TableOf(objs[chain[0]]).value[name]
               && NoneDefines(objs, chain[..0], name);
      } else {
        LookupFirstBeyond(objs, c, name);
      }
    }
  }

  /** A class with a superclass s heads the chain that continues with s's chain. */
  lemma ChainTail(objs: seq<MObj>, c: nat)
    requires Linked(objs) && c < |objs| && SuperOf(objs[c]).Some?
    ensures var s := SuperOf(objs[c]).value;
      s < c && SuperChain(objs, c) == [c] + SuperChain(objs, s)
      && (AllTabled(objs, SuperChain(objs, c)) ==> AllTabled(objs, SuperChain(objs, s)))
  {
    assert LinkedAt(objs, c);
    var rest := SuperChain(objs, SuperOf(objs[c]).value);
    AllTabledTail(objs, c, rest);
  }

  /** The classes behind the head of a tabled chain are tabled too. */
  lemma AllTabledTail(objs: seq<MObj>, c: nat, rest: seq<nat>)
    ensures AllTabled(objs, [c] + rest) ==> AllTabled(objs, rest)
  {
    if AllTabled(objs, [c] + rest) {
      forall j | 0 <= j < |rest| ensures rest[j] < |objs| && TableOf(objs[rest[j]]).Some? {
        assert rest[j] == ([c] + rest)[j + 1];
      }
    }
  }

  /** A class that does not define the name, ahead of a chain none of whose classes does. */
  lemma NoneDefinesCons(objs: seq<MObj>, c: nat, rest: seq<nat>, name: string)
    requires c < |objs| && !Defines(objs, c, name) && NoneDefines(objs, rest, name)
    ensures NoneDefines(objs, [c] + rest, name)
  {
    var chain := [c] + rest;
    forall j | 0 <= j < |chain| && chain[j] < |objs| ensures !Defines(objs, chain[j], name) {
      if j > 0 { assert chain[j] == rest[j - 1]; }
    }
  }

  /** The first definer of a chain stays the first one behind a class that does not define the name. */
  lemma FirstDefinerCons(objs: seq<MObj>, c: nat, rest: seq<nat>, name: string, m: Method)
    requires c < |objs| && !Defines(objs, c, name) && FirstDefiner(objs, rest, name, m)
    ensures FirstDefiner(objs, [c] + rest, name, m)
  {
    var chain := [c] + rest;
    var j :| 0 <= j < |rest| && rest[j] < |objs| && Defines(objs, rest[j], name)
             && m == TableOf(objs[rest[j]]).value[name] && NoneDefines(objs, rest[..j], name);
    NoneDefinesCons(objs, c, rest[..j], name);
    assert chain[j + 1] == rest[j] && chain[..j + 1] == [c] + rest[..j];
  }

  /** When class c does not define the name, a successful search found it further up the chain. */
  lemma {:induction false} LookupFirstBeyond(objs: seq<MObj>, c: nat, name: string)
    requires Linked(objs) && c < |objs| && AllTabled(objs, SuperChain(objs, c))
    requires !Defines(objs, c, name) && FindInChain(objs, Some(c), name).Ok?
    ensures FirstDefiner(objs, SuperChain(objs, c), name, FindInChain(objs, Some(c), name).value)
    decreases c, 0
  {
    assert LinkedAt(objs, c) && SuperOf(objs[c]).Some?;
    var s := SuperOf(objs[c]).value;
    ChainTail(objs, c);
    LookupFirst(objs, s, name);
    FirstDefinerCons(objs, c, SuperChain(objs, s), name, FindInChain(objs, Some(s), name).value);
  }

  /** A failed search along tabled classes means no class of the chain defines the name. */
  lemma {:induction false} LookupMiss(objs: seq<MObj>, c: nat, name: string)
    requires Linked(objs) && c < |objs| && AllTabled(objs, SuperChain(objs, c))
    ensures var chain, r := SuperChain(objs, c), FindInChain(objs, Some(c), name);
      r.Err? ==> r.error == MethodNotFound(name) && NoneDefines(objs, chain, name)
    decreases c
  {
    var chain, r := SuperChain(objs, c), FindInChain(objs, Some(c), name);
    assert LinkedAt(objs, c) && chain[0] == c && TableOf(objs[chain[0]]).Some?;
    if r.Err? {
      match SuperOf(objs[c])
      case None =>
        assert chain == [c];
      case Some(s) =>
        ChainTail(objs, c);
        LookupMiss(objs, s, name);
        NoneDefinesCons(objs, c, SuperChain(objs, s), name);
    }
  }

  /**
   * Lookup order along a chain whose classes all have tables: the search succeeds
   * exactly when some class of the chain defines the name, and then returns the
   * entry of the first such class; otherwise it reports the method not found.
   */
  lemma LookupOrder(objs: seq<MObj>, c: nat, name: string)
    requires Linked(objs) && c < |objs| && AllTabled(objs, SuperChain(objs, c))
    ensures var chain, r := SuperChain(objs, c), FindInChain(objs, Some(c), name);
      (r.Ok? <==> exists j | 0 <= j < |chain| :: Defines(objs, chain[j], name))
      && (r.Err? ==> r.error == MethodNotFound(name))
      && (r.Ok? ==> FirstDefiner(objs, chain, name, r.value))
  {
    var chain, r := SuperChain(objs, c), FindInChain(objs, Some(c), name);
    LookupFirst(objs, c, name);
    LookupMiss(objs, c, name);
    if r.Ok? {
      var j :| 0 <= j < |chain| && chain[j] < |objs| && Defines(objs, chain[j], name)
               && r.value == TableOf(objs[chain[j]]).value[name] && NoneDefines(objs, chain[..j], name);
    } else {
      forall j | 0 <= j < |chain| ensures !Defines(objs, chain[j], name) {
        assert chain[j] <= c;
      }
    }
  }

  /**
   * An object without a class (true, false, nil) finds only the methods of its
   * own singleton class.
   */
  lemma LookupWithoutClass(objs: seq<MObj>, h: nat, name: string)
    requires Linked(objs) && h < |objs| && objs[h].klass.None?
    requires objs[h].singleton.Some? && objs[h].singleton.value < |objs|
    requires TableOf(objs[objs[h].singleton.value]).Some?
    ensures LookupFrom(objs, h, name).Ok? <==> Defines(objs, objs[h].singleton.value, name)
  {
  }

  // ---------------------------------------------------------------------------
  // Defining methods

  /** The heap after `define_mruby_method(k, name, m)` on a class that has a table. */
  function Define(objs: seq<MObj>, k: nat, name: string, m: Method): (r: seq<MObj>)
    requires k < |objs| && TableOf(objs[k]).Some?
    ensures |r| == |objs| && forall j | 0 <= j < |objs| && j != k :: r[j] == objs[j]
    ensures TableOf(r[k]) == Some(TableOf(objs[k]).value[name := m])
    ensures forall v | v != "instance_methods" :: Ivar(r[k], v) == Ivar(objs[k], v)
    ensures r[k].klass == objs[k].klass && r[k].singleton == objs[k].singleton
  {
    var t := TableOf(objs[k]).value;
    objs[k := objs[k].(ivars := objs[k].ivars["instance_methods" := Table(t[name := m])])]
  }

  /** Defining a method keeps the heap linked. */
  lemma DefineLinked(objs: seq<MObj>, k: nat, name: string, m: Method)
    requires Linked(objs) && k < |objs| && TableOf(objs[k]).Some?
    ensures Linked(Define(objs, k, name, m))
  {
    var r := Define(objs, k, name, m);
    forall j | 0 <= j < |r| ensures LinkedAt(r, j) {
      assert LinkedAt(objs, j);
    }
  }

  /**
   * After `define_mruby_method(k, name, m)`, an instance of k whose singleton class
   * did not define the name finds m (in k, or in the singleton itself when that is k).
   */
  lemma LookupAfterDefine(objs: seq<MObj>, k: nat, x: nat, name: string, m: Method)
    requires Linked(objs) && k < |objs| && x < |objs| && TableOf(objs[k]).Some?
    requires objs[x].klass == Some(k) && objs[x].singleton.Some? && objs[x].singleton.value < |objs|
    requires TableOf(objs[objs[x].singleton.value]).Some? && !Defines(objs, objs[x].singleton.value, name)
    ensures Linked(Define(objs, k, name, m))
    ensures LookupFrom(Define(objs, k, name, m), x, name) == Ok(m)
  {
    DefineLinked(objs, k, name, m);
    var r := Define(objs, k, name, m);
    if objs[x].singleton.value != k {
      assert r[objs[x].singleton.value] == objs[objs[x].singleton.value];
    }
  }

  // ---------------------------------------------------------------------------
  // Boxing helpers and builtins

  /** `m_nil`: always the one nil object. */
  function MNil(): (h: nat)
    ensures h == NIL && BootObjects()[h].klass.None? && BootObjects()[h].ivars == map[]
  {
    NIL
  }

  /** `m_bool(b)`: the shared true object when b holds, the shared false object otherwise. */
  function MBool(b: bool): (h: nat)
    ensures h == TRUE || h == FALSE
    ensures h == TRUE <==> b
  {
    if b then TRUE else FALSE
  }

  /** A fresh boxed value: class cls, one ivar `content`. */
  function Boxed(cls: Option<nat>, v: Val): MObj
  {
    MObj(cls, map["content" := v], None)
  }

  /** The selectors of the Integer builtins this model evaluates. */
  predicate IsIntArith(m: Method)
  {
    m.Builtin? && m.owner == "Integer" && m.selector in {"+", "-", "*", "/"}
  }

  /**
   * Ruby's `Integer#/`: the quotient rounded toward negative infinity, whatever
   * the signs (Dafny's own `/` is Euclidean, which differs for a negative divisor).
   */
  function FloorDiv(x: int, y: int): (q: int)
    requires y != 0
    ensures y > 0 ==> q * y <= x < q * y + y
    ensures y < 0 ==> q * y >= x > q * y + y
  {
    if y > 0 then x / y else (-x) / (-y)
  }

  /** The integer an arithmetic builtin computes from the two contents. */
  function Arith(sel: string, x: int, y: int): int
    requires sel in {"+", "-", "*", "/"} && (sel == "/" ==> y != 0)
  {
    if sel == "+" then x + y
    else if sel == "-" then x - y
    else if sel == "*" then x * y
    else FloorDiv(x, y)
  }

  /**
   * Ruby's `String#*`: s repeated n times. The result starts with s (when n > 0)
   * and repeats with period |s|, which determines it.
   */
  function Repeat(s: string, n: nat): (r: string)
    ensures |r| == |s| * n
    ensures n > 0 ==> r[..|s|] == s
    ensures forall k | |s| <= k < |r| :: r[k] == r[k - |s|]
  {
    if n == 0 then [] else s + Repeat(s, n - 1)
  }

  /**
   * The host operator `x op y` applied to two contents, as the Integer lambdas
   * apply it: Integer arithmetic on two integers, `String#+` and `String#*` on a
   * string receiver, and a raise wherever Ruby's own operator raises.
   */
  function ContentOp(sel: string, x: Val, y: Val): Result<Val, RuntimeError>
    requires sel in {"+", "-", "*", "/"}
  {
    match x
    case Int(a) =>
      if !y.Int? then Err(NotAnInteger(y))
      else if sel == "/" && y.i == 0 then Err(ZeroDivision)
      else Ok(Int(Arith(sel, a, y.i)))
    case Str(s) =>
      if sel == "+" then
        if y.Str? then Ok(Str(s + y.s)) else Err(NotAString(y))
      else if sel == "*" then
        if !y.Int? then Err(NotAnInteger(y))
        else if y.i < 0 then Err(NegativeArgument(y.i))
        else Ok(Str(Repeat(s, y.i)))
      else Err(UndefinedHostMethod(sel))
    case _ => Err(UndefinedHostMethod(sel))
  }

  /**
   * Integer `+`, `-`, `*` and `/`: the receiver's and the argument's `content`
   * combined by the host operator and boxed by `m_int`. Two integers give their
   * sum, difference, product or floor quotient; a string receiver content
   * concatenates (`+`) or repeats (`*`), and the result is still boxed as an
   * Integer; every other combination raises, and so does a division by zero.
   */
  function IntArith(objs: seq<MObj>, sel: string, slf: nat, other: nat): (r: (Result<nat, RuntimeError>, seq<MObj>))
    requires sel in {"+", "-", "*", "/"} && slf < |objs| && other < |objs|
    ensures r.0.Err? ==> r.1 == objs
    ensures r.0.Ok? ==> r.0.value == |objs| && |r.1| == |objs| + 1 && r.1[..|objs|] == objs
    ensures var x, y := Ivar(objs[slf], "content"), Ivar(objs[other], "content");
      r.0.Ok? <==> (x.Int? && y.Int? && !(sel == "/" && y.i == 0))
                   || (x.Str? && sel == "+" && y.Str?)
                   || (x.Str? && sel == "*" && y.Int? && y.i >= 0)
    ensures var x, y := Ivar(objs[slf], "content"), Ivar(objs[other], "content");
      (x.Int? && y.Int? && r.0.Ok? ==> r.1[|objs|] == Boxed(Some(INTEGER), Int(Arith(sel, x.i, y.i))))
      && (x.Int? && y.Int? && sel == "/" && y.i == 0 ==> r.0 == Err(ZeroDivision))
      && (x.Int? && !y.Int? ==> r.0 == Err(NotAnInteger(y)))
    ensures var x, y := Ivar(objs[slf], "content"), Ivar(objs[other], "content");
      (x.Str? && sel == "+" && y.Str? ==> r.1[|objs|] == Boxed(Some(INTEGER), Str(x.s + y.s)))
      && (x.Str? && sel == "*" && y.Int? && y.i >= 0 ==> r.1[|objs|] == Boxed(Some(INTEGER), Str(Repeat(x.s, y.i))))
      && (x.Str? && sel == "*" && y.Int? && y.i < 0 ==> r.0 == Err(NegativeArgument(y.i)))
      && (x.Str? && (sel == "-" || sel == "/") ==> r.0 == Err(UndefinedHostMethod(sel)))
      && (!x.Int? && !x.Str? ==> r.0 == Err(UndefinedHostMethod(sel)))
  {
    match ContentOp(sel, Ivar(objs[slf], "content"), Ivar(objs[other], "content"))
    case Ok(v) => (Ok(|objs|), objs + [Boxed(Some(INTEGER), v)])
    case Err(e) => (Err(e), objs)
  }

  /**
   * The Integer builtins as written: the `+` lambda reads its receiver with
   * `ivar_get_get`, a method `MObj` does not have, so it raises before adding.
   */
  function IntArithAsWritten(objs: seq<MObj>, sel: string, slf: nat, other: nat): (r: (Result<nat, RuntimeError>, seq<MObj>))
    requires sel in {"+", "-", "*", "/"} && slf < |objs| && other < |objs|
    ensures sel == "+" ==> r == (Err(UndefinedHostMethod("ivar_get_get")), objs)
    ensures sel != "+" ==> r == IntArith(objs, sel, slf, other)
  {
    if sel == "+" then (Err(UndefinedHostMethod("ivar_get_get")), objs)
    else IntArith(objs, sel, slf, other)
  }

  /** As written, 1 + 2 raises; with the receiver read by `ivar_get`, it makes a new Integer 3. */
  lemma PlusAsWrittenRaises()
    ensures var objs := BootObjects() + [Boxed(Some(INTEGER), Int(1)), Boxed(Some(INTEGER), Int(2))];
      IntArithAsWritten(objs, "+", 7, 8).0.Err?
      && IntArith(objs, "+", 7, 8).0 == Ok(9)
      && Ivar(IntArith(objs, "+", 7, 8).1[9], "content") == Int(3)
  {
    var objs := BootObjects() + [Boxed(Some(INTEGER), Int(1)), Boxed(Some(INTEGER), Int(2))];
    assert Ivar(objs[7], "content") == Int(1) && Ivar(objs[8], "content") == Int(2);
  }

  /**
   * A string receiver content goes through the host's String operators: "ab" * 3
   * makes a fresh Integer holding "ababab", "a" + "b" one holding "ab", and
   * "ab" * -1 and "ab" - "a" raise.
   */
  lemma StringContentArith()
    ensures var objs := BootObjects() + [Boxed(Some(INTEGER), Str("ab")), Boxed(Some(INTEGER), Int(3)),
                                         Boxed(Some(INTEGER), Int(-1))];
      IntArith(objs, "*", 7, 8).0 == Ok(10)
      && Ivar(IntArith(objs, "*", 7, 8).1[10], "content") == Str("ababab")
      && IntArith(objs, "*", 7, 9).0 == Err(NegativeArgument(-1))
      && IntArith(objs, "-", 7, 7).0 == Err(UndefinedHostMethod("-"))
      && IntArith(objs, "+", 8, 7).0 == Err(NotAnInteger(Str("ab")))
    ensures var objs := BootObjects() + [Boxed(Some(INTEGER), Str("a")), Boxed(Some(INTEGER), Str("b"))];
      IntArith(objs, "+", 7, 8).0 == Ok(9) && Ivar(IntArith(objs, "+", 7, 8).1[9], "content") == Str("ab")
  {
    var objs := BootObjects() + [Boxed(Some(INTEGER), Str("ab")), Boxed(Some(INTEGER), Int(3)),
                                 Boxed(Some(INTEGER), Int(-1))];
    assert Ivar(objs[7], "content") == Str("ab") && Ivar(objs[8], "content") == Int(3);
    assert Ivar(objs[9], "content") == Int(-1);
    var rep := Repeat("ab", 3);
    assert |rep| == 6;
    assert rep == "ababab";
    var objs2 := BootObjects() + [Boxed(Some(INTEGER), Str("a")), Boxed(Some(INTEGER), Str("b"))];
    assert Ivar(objs2[7], "content") == Str("a") && Ivar(objs2[8], "content") == Str("b");
  }

  /** Integer `/` rounds toward negative infinity: -7 / 2 is -4 and 7 / -2 is -4, where Dafny's `/` gives -4 and -3. */
  lemma FloorDivRounding()
    ensures FloorDiv(-7, 2) == -4 && FloorDiv(7, -2) == -4 && FloorDiv(-7, -2) == 3
  {
    assert FloorDiv(-7, 2) * 2 <= -7 < FloorDiv(-7, 2) * 2 + 2;
    assert FloorDiv(7, -2) * -2 >= 7 > FloorDiv(7, -2) * -2 - 2;
    assert FloorDiv(-7, -2) * -2 >= -7 > FloorDiv(-7, -2) * -2 - 2;
  }

  /**
   * Calling a found method with `method.call(self, receiver, *args)`: the Integer
   * arithmetic lambdas take exactly one argument; the other callables are outside
   * this model.
   */
  function Apply(objs: seq<MObj>, m: Method, slf: nat, args: seq<nat>): (r: (Result<nat, RuntimeError>, seq<MObj>))
    requires slf < |objs| && forall i | 0 <= i < |args| :: args[i] < |objs|
    ensures !IsIntArith(m) ==> r == (Err(NotModelled(m)), objs)
    ensures IsIntArith(m) && |args| != 1 ==> r == (Err(WrongArity(|args|)), objs)
    ensures IsIntArith(m) && |args| == 1 ==> r == IntArith(objs, m.selector, slf, args[0])
  {
    if !IsIntArith(m) then (Err(NotModelled(m)), objs)
    else if |args| != 1 then (Err(WrongArity(|args|)), objs)
    else IntArith(objs, m.selector, slf, args[0])
  }

  /** Appending objects whose references point into the heap, with no superclass, keeps it linked. */
  lemma AppendLinked(objs: seq<MObj>, o: MObj)
    requires Linked(objs)
    requires o.klass.Some? ==> o.klass.value < |objs|
    requires o.singleton.None? && SuperBelow(Ivar(o, "superclass"), |objs|)
    ensures Linked(objs + [o])
  {
    var r := objs + [o];
    forall j | 0 <= j < |r| ensures LinkedAt(r, j) {
      if j < |objs| { assert LinkedAt(objs, j); }
    }
  }

  /** Recording an existing object as h's singleton class keeps the heap linked. */
  lemma SetSingletonLinked(objs: seq<MObj>, h: nat, s: nat)
    requires Linked(objs) && h < |objs| && s < |objs|
    ensures Linked(objs[h := objs[h].(singleton := Some(s))])
  {
    var r := objs[h := objs[h].(singleton := Some(s))];
    forall j | 0 <= j < |r| ensures LinkedAt(r, j) {
      assert LinkedAt(objs, j);
    }
  }

  // ---------------------------------------------------------------------------
  // The heap

  /** The objects every runtime shares: the builtin classes and everything allocated since. */
  class Space {
    var objs: seq<MObj>

    ghost predicate Valid()
      reads this
    {
      Linked(objs)
    }

    /** Loading the runtime: Object and Class are made without a class, then both get class Class. */
    constructor ()
      ensures Valid() && objs == BootObjects()
    {
      objs := [ MObj(None, ClassIvars("Object", Nil, Builtins("Object", {"inspect", "puts", "p"})), None),
                MObj(None, ClassIvars("Class", Ref(OBJECT), map[]), None) ];
      new;
      UnsafeSetClass(OBJECT, CLASS);
      UnsafeSetClass(CLASS, CLASS);
      objs := objs + [ MObj(Some(CLASS), ClassIvars("Integer", Ref(OBJECT), Builtins("Integer", ARITH + {"inspect"})), None),
                       MObj(Some(CLASS), map["name" := Str("String"), "instance_methods" := Table(Builtins("String", ARITH))], None) ];
      objs := objs + [MObj(None, map[], None), MObj(None, map[], None), MObj(None, map[], None)];
      BootLinked();
    }

    /** `ivar_get` on object h. */
    function IvarGet(h: nat, name: string): (v: Val)
      reads this
      requires h < |objs|
      ensures name in objs[h].ivars ==> v == objs[h].ivars[name]
      ensures name !in objs[h].ivars ==> v == Nil
    {
      Ivar(objs[h], name)
    }

    /** `ivar_set` on object h: only that ivar of that object changes. */
    method IvarSet(h: nat, name: string, v: Val)
      requires Valid() && h < |objs|
      requires name == "superclass" ==> SuperBelow(v, h)
      modifies this
      ensures Valid() && |objs| == |old(objs)|
      ensures objs[h] == old(objs[h]).(ivars := old(objs[h].ivars)[name := v])
      ensures forall j | 0 <= j < |objs| && j != h :: objs[j] == old(objs[j])
    {
      objs := objs[h := objs[h].(ivars := objs[h].ivars[name := v])];
      forall j | 0 <= j < |objs| ensures LinkedAt(objs, j) {
        assert LinkedAt(old(objs), j);
      }
    }

    /** `unsafe_set_class`: object h now has class k; nothing else changes. */
    method UnsafeSetClass(h: nat, k: nat)
      requires h < |objs| && k < |objs|
      modifies this
      ensures objs == old(objs)[h := old(objs[h]).(klass := Some(k))]
      ensures Linked(old(objs)) ==> Linked(objs)
    {
      objs := objs[h := objs[h].(klass := Some(k))];
      if Linked(old(objs)) {
        forall j | 0 <= j < |objs| ensures LinkedAt(objs, j) {
          assert LinkedAt(old(objs), j);
        }
      }
    }

    /**
     * `mruby_singleton_class`: the existing singleton class of h, or a new one
     * (see NewSingleton) recorded on h; asking twice gives the same class.
     */
    method SingletonClass(h: nat) returns (s: nat)
      requires Valid() && h < |objs|
      modifies this
      ensures Valid() && objs == WithSingleton(old(objs), h)
      ensures objs[h].singleton == Some(s) && s < |objs|
      ensures old(objs[h].singleton).Some? ==> objs == old(objs) && s == old(objs[h].singleton.value)
      ensures old(objs[h].singleton).None? ==> s == |old(objs)| && objs[s] == NewSingleton(old(objs), h)
    {
      WithSingletonLinked(objs, h);
      assert LinkedAt(objs, h);
      if objs[h].singleton.Some? {
        s := objs[h].singleton.value;
      } else {
        s := |objs|;
        objs := objs[h := objs[h].(singleton := Some(s))] + [NewSingleton(objs, h)];
      }
    }

    /**
     * `create_mruby_class(name, sup)`: a new object of class Class with an empty
     * method table, whose superclass is sup, or Object when sup is nil.
     */
    method CreateClass(name: string, sup: Option<nat>) returns (k: nat)
      requires Valid() && (sup.Some? ==> sup.value < |objs|)
      modifies this
      ensures Valid() && k == |old(objs)| && |objs| == k + 1 && objs[..k] == old(objs)
      ensures objs[k].klass == Some(CLASS) && objs[k].singleton.None?
      ensures Ivar(objs[k], "name") == Str(name) && TableOf(objs[k]) == Some(map[])
      ensures SuperOf(objs[k]) == Some(if sup.Some? then sup.value else OBJECT)
    {
      var o := MObj(Some(CLASS), ClassIvars(name, Ref(if sup.Some? then sup.value else OBJECT), map[]), None);
      AppendLinked(objs, o);
      k := |objs|;
      objs := objs + [o];
    }

    /**
     * `define_mruby_method(k, name, m)`: k's table now maps name to m and keeps
     * every other entry; a class without a table raises and nothing changes.
     */
    method DefineMethod(k: nat, name: string, m: Method) returns (r: Result<(), RuntimeError>)
      requires Valid() && k < |objs|
      modifies this
      ensures Valid()
      ensures r.Err? <==> old(TableOf(objs[k])).None?
      ensures r.Err? ==> r.error == NoMethodTable(k) && objs == old(objs)
      ensures r.Ok? ==> objs == Define(old(objs), k, name, m)
    {
      if TableOf(objs[k]).None? {
        return Err(NoMethodTable(k));
      }
      DefineLinked(objs, k, name, m);
      objs := Define(objs, k, name, m);
      r := Ok(());
    }

    /** Allocates a fresh boxed value. */
    method Box(cls: Option<nat>, v: Val) returns (h: nat)
      requires Valid() && (cls.Some? ==> cls.value < |objs|)
      modifies this
      ensures Valid() && h == |old(objs)| && objs == old(objs) + [Boxed(cls, v)]
    {
      AppendLinked(objs, Boxed(cls, v));
      h := |objs|;
      objs := objs + [Boxed(cls, v)];
    }

    /** `m_int(n)`: a fresh Integer whose content is n. */
    method MInt(n: int) returns (h: nat)
      requires Valid()
      modifies this
      ensures Valid() && h == |old(objs)| && objs == old(objs) + [Boxed(Some(INTEGER), Int(n))]
      ensures objs[h].klass == Some(INTEGER) && Ivar(objs[h], "content") == Int(n)
    {
      h := Box(Some(INTEGER), Int(n));
    }

    /** `m_str(s)`: a fresh String whose content is s. */
    method MStr(s: string) returns (h: nat)
      requires Valid()
      modifies this
      ensures Valid() && h == |old(objs)| && objs == old(objs) + [Boxed(Some(STRING), Str(s))]
      ensures objs[h].klass == Some(STRING) && Ivar(objs[h], "content") == Str(s)
    {
      h := Box(Some(STRING), Str(s));
    }

    /** `m_sym(s)`: a fresh object with content s; its class Symbol is never defined, so it has none. */
    method MSym(s: string) returns (h: nat)
      requires Valid()
      modifies this
      ensures Valid() && h == |old(objs)| && objs == old(objs) + [Boxed(None, Str(s))]
      ensures objs[h].klass.None? && Ivar(objs[h], "content") == Str(s)
    {
      h := Box(None, Str(s));
    }

    /** The Integer `+`, `-`, `*` and `/` builtins on receiver slf and argument other. */
    method CallIntArith(sel: string, slf: nat, other: nat) returns (r: Result<nat, RuntimeError>)
      requires sel in {"+", "-", "*", "/"} && Valid() && slf < |objs| && other < |objs|
      modifies this
      ensures Valid() && (r, objs) == IntArith(old(objs), sel, slf, other)
    {
      var v := ContentOp(sel, Ivar(objs[slf], "content"), Ivar(objs[other], "content"));
      if v.Err? {
        return Err(v.error);
      }
      var h := Box(Some(INTEGER), v.value);
      r := Ok(h);
    }
  }

  // ---------------------------------------------------------------------------
  // The runtime

  /** The names and classes a fresh runtime's constant table starts with. */
  function BuiltinConstants(): map<string, Val>
  {
    map["Object" := Ref(OBJECT), "Class" := Ref(CLASS), "Integer" := Ref(INTEGER), "String" := Ref(STRING)]
  }

  /** The singleton class of `main`: it defines only `inspect`. */
  function MainSingleton(): MObj
  {
    MObj(Some(CLASS), ClassIvars("(singleton of main)", Ref(CLASS), map["inspect" := Builtin("main", "inspect")]), None)
  }

  /** One runtime: its global variables, constants and `main`, over the shared heap. */
  class Runtime {
    const space: Space
    var globals: map<string, Val>
    var constants: map<string, Val>
    const main: nat

    ghost predicate Valid()
      reads this, space
    {
      space.Valid() && main < |space.objs|
    }

    /**
     * A fresh runtime: no globals, the builtin constants (a copy: setting a
     * constant never changes BuiltinConstants), and a new `main` of class Object
     * with its own singleton class.
     */
    constructor (space: Space)
      requires space.Valid()
      modifies space
      ensures Valid() && this.space == space
      ensures globals == map[] && constants == BuiltinConstants()
      ensures main == |old(space.objs)| + 1
      ensures space.objs == old(space.objs) + [MainSingleton(), MObj(Some(OBJECT), map[], Some(main - 1))]
    {
      var n := |space.objs|;
      this.space := space;
      globals := map[];
      constants := BuiltinConstants();
      main := n + 1;
      new;
      AppendLinked(space.objs, MainSingleton());
      space.objs := space.objs + [MainSingleton()];
      AppendLinked(space.objs, MObj(Some(OBJECT), map[], None));
      space.objs := space.objs + [MObj(Some(OBJECT), map[], None)];
      SetSingletonLinked(space.objs, n + 1, n);
      space.objs := space.objs[n + 1 := space.objs[n + 1].(singleton := Some(n))];
    }

    /** `gvar_get`: an unset global reads as nil. */
    function GvarGet(name: string): (v: Val)
      reads this
      ensures name in globals ==> v == globals[name]
      ensures name !in globals ==> v == Nil
    {
      if name in globals then globals[name] else Nil
    }

    /** `gvar_set`: that global now holds v; every other global and all constants are unchanged. */
    method GvarSet(name: string, v: Val)
      modifies this
      ensures globals == old(globals)[name := v] && constants == old(constants)
      ensures GvarGet(name) == v && forall n | n != name :: GvarGet(n) == old(GvarGet(n))
    {
      globals := globals[name := v];
    }

    /** `const_get`: keyed by the name's text; an unset constant reads as nil. */
    function ConstGet(name: string): (v: Val)
      reads this
      ensures name in constants ==> v == constants[name]
      ensures name !in constants ==> v == Nil
    {
      if name in constants then constants[name] else Nil
    }

    /** `const_set`: that constant now holds v; everything else is unchanged. */
    method ConstSet(name: string, v: Val)
      modifies this
      ensures constants == old(constants)[name := v] && globals == old(globals)
      ensures ConstGet(name) == v && forall n | n != name :: ConstGet(n) == old(ConstGet(n))
    {
      constants := constants[name := v];
    }

    /**
     * `lookup_mruby_method(h, name)`: makes h's singleton class if need be, looks in
     * its table, then walks h's class and its superclasses until one defines the
     * name; running off the chain raises "method not found".
     */
    method LookupMethod(h: nat, name: string) returns (r: Result<Method, RuntimeError>)
      requires Valid() && h < |space.objs|
      modifies space
      ensures Valid() && space.objs == WithSingleton(old(space.objs), h)
      ensures r == LookupFrom(space.objs, h, name)
    {
      var s := space.SingletonClass(h);
      var table := TableOf(space.objs[s]);
      if table.None? {
        return Err(NoMethodTable(s));
      }
      if name in table.value {
        return Ok(table.value[name]);
      }
      assert LinkedAt(space.objs, h);
      var cls: Option<nat> := space.objs[h].klass;
      while cls.Some?
        invariant Linked(space.objs) && (cls.Some? ==> cls.value < |space.objs|)
        invariant LookupFrom(space.objs, h, name) == FindInChain(space.objs, cls, name)
        decreases if cls.Some? then cls.value + 1 else 0
      {
        var c := cls.value;
        assert LinkedAt(space.objs, c);
        var t := TableOf(space.objs[c]);
        if t.None? {
          return Err(NoMethodTable(c));
        }
        if name in t.value {
          return Ok(t.value[name]);
        }
        cls := SuperOf(space.objs[c]);
      }
      r := Err(MethodNotFound(name));
    }

    /**
     * `invoke_mruby_method(receiver, name, *args)`: look the method up, then call
     * it with the runtime, the receiver and the arguments.
     */
    method Invoke(receiver: nat, name: string, args: seq<nat>) returns (r: Result<nat, RuntimeError>)
      requires Valid() && receiver < |space.objs| && forall i | 0 <= i < |args| :: args[i] < |space.objs|
      modifies space
      ensures Valid()
      ensures var heap := WithSingleton(old(space.objs), receiver);
        Linked(heap) && var m := LookupFrom(heap, receiver, name);
        (m.Err? ==> r == Err(m.error) && space.objs == heap)
        && (m.Ok? ==> (r, space.objs) == Apply(heap, m.value, receiver, args))
    {
      var m := LookupMethod(receiver, name);
      if m.Err? {
        return Err(m.error);
      }
      if !IsIntArith(m.value) {
        return Err(NotModelled(m.value));
      }
      if |args| != 1 {
        return Err(WrongArity(|args|));
      }
      r := space.CallIntArith(m.value.selector, receiver, args[0]);
    }
  }
}
