/**
  The typed side of the conversion: materialized values, the six RFC 6902
  operations (section 4 of RFC 6902) and the patch that bundles them with
  the binding context.
 */
module Patches {
  import opened Wrappers
  import opened JsonNodes

  /** The Jackson `ObjectMapper` the converter holds; only its identity matters here. */
  datatype ObjectMapper = ObjectMapper(handle: nat)

  /** The `BindContext` the converter holds; only its identity matters here. */
  datatype BindContext = BindContext(handle: nat)

  /** A structured literal whose binding waits until the target type is known. */
  datatype LateObjectEvaluator = LateObjectEvaluator(mapper: ObjectMapper, node: JsonNode)

  /** What a `value` member materializes to. */
  datatype Value =
    | NullValue
    | Str(text: string)
    | Double(literal: FloatLiteral)
    | Boolean(truth: bool)
    | Int(intValue: int32)
    | Long(longValue: int64)
    | Deferred(evaluator: LateObjectEvaluator)

  /** The six operation kinds; `path` is the target location (the "to" of copy and move). */
  datatype PatchOperation =
    | Test(path: JString, value: Value)
    | Replace(path: JString, value: Value)
    | Remove(path: JString)
    | Add(path: JString, value: Value)
    | Copy(from: JString, path: JString)
    | Move(from: JString, path: JString)

  /** The ordered operations together with the binding context they are applied in. */
  datatype Patch = Patch(operations: seq<PatchOperation>, context: BindContext)

  datatype PatchError =
    | IllegalArgument(message: string)
    | PatchException(message: string)
      /** `op` or `path` absent from an element: a NullPointerException in the converter */
    | MissingMember(name: string)

  /** The `op` member that names an operation on the wire. */
  function Tag(op: PatchOperation): string {
    match op
    case Test(_, _) => "test"
    case Replace(_, _) => "replace"
    case Remove(_) => "remove"
    case Add(_, _) => "add"
    case Copy(_, _) => "copy"
    case Move(_, _) => "move"
  }

  const OPERATION_TAGS: set<string> := {"test", "replace", "remove", "add", "copy", "move"}

  /** The JSON node a value stands for: the inverse of value materialization. */
  function NodeOf(v: Value): JsonNode {
    match v
    case NullValue => NullNode
    case Str(s) => TextNode(s)
    case Double(f) => FloatingNode(f)
    case Boolean(b) => BooleanNode(b)
    case Int(i) => IntNode(i)
    case Long(l) => LongNode(l)
    case Deferred(e) => e.node
  }

  /** A value the converter holding `mapper` can produce: deferred only for structured literals, and with that mapper. */
  predicate Materializable(mapper: ObjectMapper, v: Value) {
    v.Deferred? ==> v.evaluator.mapper == mapper && (v.evaluator.node.ObjectNode? || v.evaluator.node.ArrayNode?)
  }

  /** Materializable values are told apart by the node they stand for. */
  lemma NodeOfInjective(mapper: ObjectMapper, v: Value, w: Value)
    requires Materializable(mapper, v) && Materializable(mapper, w)
    requires NodeOf(v) == NodeOf(w)
    ensures v == w
  {
  }
}
