/** Run-time values, as the language defines them and as the VM holds them.
    They differ in functions only: a closure over an environment, or a
    compiled body with the values its captures had. */
module Values {
  import opened Syntax
  import opened Bytecode

  /** What an error the evaluator or the VM raises itself reports. */
  datatype ErrorKind =
    | Unresolved(name: string)
    | ArityMismatch(expected: nat, got: nat)
    | TooManyParameters
    | NotThrowable
    | Internal

  /** A collection is a `Node` of its tag and parts. */
  datatype Value =
    | Nil | True | False
    | Atom(atom: int)
    | Node(tag: int, items: seq<Value>)
    | Error(kind: ErrorKind)
    | Closure(params: seq<string>, body: seq<Form>, env: map<string, Value>)

  datatype VmValue =
    | VNil | VTrue | VFalse
    | VAtom(atom: int)
    | VNode(tag: int, items: seq<VmValue>)
    | VError(kind: ErrorKind)
    | VFn(m: Module, caps: seq<VmValue>)

  type Env = map<string, Value>

  /** An exception in flight: one of the language (`tag` identifies the thrown
      object, beyond its value), or a foreign C++ error. */
  datatype Exn<+V> = Managed(value: V, tag: int) | Foreign(what: int)

  datatype PrimResult<+V> = Returns(value: V) | Raises(exn: Exn<V>)

  /** The parts of the runtime that are not modelled, on both kinds of value:
      calling anything that is not a fn (primitives, keywords, maps, vectors,
      non-callables), class tests, what may be thrown, and the exception a
      foreign error becomes when a handler takes it. */
  datatype Prims = Prims(
    call: (Value, seq<Value>) -> PrimResult<Value>,
    vmCall: (VmValue, seq<VmValue>) -> PrimResult<VmValue>,
    matches: (Value, nat) -> bool,
    vmMatches: (VmValue, nat) -> bool,
    throwable: Value -> bool,
    vmThrowable: VmValue -> bool,
    translate: int -> Value,
    vmTranslate: int -> VmValue)

  function ConstValue(c: Const): Value {
    match c case CNil => Nil case CTrue => True case CFalse => False case CAtom(a) => Atom(a)
  }

  function ConstVmValue(c: Const): VmValue {
    match c case CNil => VNil case CTrue => VTrue case CFalse => VFalse case CAtom(a) => VAtom(a)
  }

  predicate Truthy(v: Value) { v != Nil && v != False }

  predicate VmTruthy(w: VmValue) { w != VNil && w != VFalse }

  /** The value a handler receives. */
  function CaughtValue(P: Prims, x: Exn<Value>): Value {
    if x.Managed? then x.value else P.translate(x.what)
  }

  function VmCaughtValue(P: Prims, x: Exn<VmValue>): VmValue {
    if x.Managed? then x.value else P.vmTranslate(x.what)
  }

  /** What leaves a `try` that caught `x` and did not handle it: the very
      exception, or for a foreign error the exception it was translated to. */
  function Passed(P: Prims, x: Exn<Value>): Exn<Value> {
    if x.Managed? then x else Managed(P.translate(x.what), 0)
  }
}
