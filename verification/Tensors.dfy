/** The values that flow through a graph, and the operators that act on them. */
module Tensors {

  /** One tensor: prototype (element type and sizes), memory, and the further fields of a packed tensor. */
  datatype Tensor = Tensor(dtype: nat, sizes: seq<nat>, data: seq<bv8>, fields: seq<Tensor>)

  const EMPTY: Tensor := Tensor(0, [], [], [])

  // The numbers of `DTYPE`.
  const VOID := 0
  const INT8 := 1
  const UINT8 := 2
  const INT16 := 3
  const UINT16 := 4
  const INT32 := 5
  const UINT32 := 6
  const INT64 := 7
  const UINT64 := 8
  const FLOAT16 := 9
  const FLOAT32 := 10
  const FLOAT64 := 11
  const PTR := 12
  const CHAR8 := 13
  const CHAR16 := 14
  const CHAR32 := 15
  const UNKNOWN8 := 16
  const UNKNOWN16 := 17
  const UNKNOWN32 := 18
  const UNKNOWN64 := 19
  const UNKNOWN128 := 20
  const BOOLEAN := 21
  const COMPLEX32 := 22
  const COMPLEX64 := 23
  const COMPLEX128 := 24
  const SINK8Q0 := 25
  const SINK8Q7 := 32

  /** The four cases of `Bubble::op()` the compiler tells apart. */
  datatype Kind = Parameter | Const | Variable | Operator

  const PARAMETER := "<param>"
  const CONST := "<const>"
  const VARIABLE := "<var>"
  const VALUE := "value"

  datatype Bubble = Bubble(op: string, name: string, params: map<string, Tensor>) {
    function Kind(): Kind {
      if op == PARAMETER then Parameter
      else if op == CONST then Const
      else if op == VARIABLE then Variable
      else Operator
    }

    predicate HasValue() {
      VALUE in params
    }

    function Value(): Tensor {
      if HasValue() then params[VALUE] else EMPTY
    }
  }

  /** What the operator of a node says of it. */
  lemma Kinds(b: Bubble)
    ensures b.Kind() == match b.op
                        case "<param>" => Parameter
                        case "<const>" => Const
                        case "<var>" => Variable
                        case _ => Operator
    ensures b.HasValue() <==> "value" in b.params
    ensures "value" in b.params ==> b.Value() == b.params["value"]
  {
  }

  /** The node `bubble::data` builds around a computed tensor. */
  function Data(name: string, value: Tensor): (b: Bubble)
    ensures b.Kind() == Const && b.HasValue() && b.Value() == value && b.name == name
  {
    Bubble(CONST, name, map[VALUE := value])
  }

  /**
   * What the registered operators do. An operator reads its arguments and leaves `scratch`
   * entries and then its single result on the stack.
   */
  datatype Kernels = Kernels(
    supports: string -> bool,
    result: (Bubble, seq<Tensor>) -> Tensor,
    scratch: (Bubble, seq<Tensor>) -> seq<Tensor>)

  datatype Error =
    | VariableUnsupported
    | ParamMissing
    | OperatorUnsupported
    | InputInaccessible
    | NargsMismatch
    | StackTooShort
    | OutOfRange
    | TooFewResults
    | ResultsMismatch
    | BadFilterShape
    | OutputCountMismatch
    | NotAnInteger

  datatype Result<+T> = Ok(value: T) | Err(error: Error)
}
