/**
  Conversion of a JSON Patch document (RFC 6902) into a `Patch`: the array
  check, the in-order walk over its elements, the dispatch on the six
  operation tags and the classification of each `value` member.
 */
module JsonPatch {
  import opened Wrappers
  import opened JsonNodes
  import opened Patches

  const NOT_AN_ARRAY_MESSAGE := "JsonNode must be an instance of ArrayNode"
  const UNRECOGNIZED_OPERATION_PREFIX := "Unrecognized operation type: "

  function UnrecognizedValueNodeMessage(path: JString, valueNode: JsonNode): string
    requires valueNode.OtherNode?
  {
    "Unrecognized valueNode type at path " + Render(path) + " and value node " + valueNode.rendered
  }

  /** The diagnostic for an unsupported value node names the path it was found at. */
  lemma UnrecognizedValueNodeMessageNamesPath(path: JString, valueNode: JsonNode)
    requires valueNode.OtherNode?
    ensures var m := UnrecognizedValueNodeMessage(path, valueNode);
            var k := |"Unrecognized valueNode type at path "|;
            k + |Render(path)| <= |m| && m[k..k + |Render(path)|] == Render(path)
  {
  }

  /**
    `valueFromJsonNode`: an absent or null node gives null, then textual,
    floating, boolean, int and long nodes give their scalar, object and
    array nodes a deferred evaluator over the node itself, and any other
    node fails. The result stands for exactly the node it came from.
   */
  function ValueFromJsonNode(mapper: ObjectMapper, path: JString, valueNode: Option<JsonNode>): (r: Result<Value, PatchError>)
    ensures r.Success? <==> valueNode.None? || !valueNode.value.OtherNode?
    ensures r.Success? ==> Materializable(mapper, r.value)
    ensures r.Success? ==> NodeOf(r.value) == if valueNode.None? then NullNode else valueNode.value
    ensures r.Failure? ==> r.error == PatchException(UnrecognizedValueNodeMessage(path, valueNode.value))
  {
    if valueNode.None? || valueNode.value.NullNode? then Success(NullValue)
    else
      var node := valueNode.value;
      if node.TextNode? then Success(Str(node.text))
      else if node.FloatingNode? then Success(Double(node.literal))
      else if node.BooleanNode? then Success(Boolean(node.truth))
      else if node.IntNode? then Success(Int(node.intValue))
      else if node.LongNode? then Success(Long(node.longValue))
      else if node.ObjectNode? || node.ArrayNode? then Success(Deferred(LateObjectEvaluator(mapper, node)))
      else Failure(PatchException(UnrecognizedValueNodeMessage(path, node)))
  }

  /** The floating case is decided before the integral ones: a floating literal stays floating. */
  lemma FloatingNeverIntegral(mapper: ObjectMapper, path: JString, literal: FloatLiteral)
    ensures ValueFromJsonNode(mapper, path, Some(FloatingNode(literal))) == Success(Double(literal))
  {
  }

  /**
    The `if`/`else if` dispatch on the operation type: each of the six
    lowercase tags builds its operation from the element's fields, any
    other tag (or a null one) fails.
   */
  function OperationOf(opType: JString, path: JString, value: Value, from: JString): (r: Result<PatchOperation, PatchError>)
    ensures r.Success? <==> opType.Some? && opType.value in OPERATION_TAGS
    ensures r.Success? ==> Tag(r.value) == opType.value && r.value.path == path
    ensures r.Success? && (r.value.Test? || r.value.Replace? || r.value.Add?) ==> r.value.value == value
    ensures r.Success? && (r.value.Copy? || r.value.Move?) ==> r.value.from == from
    ensures r.Failure? ==> r.error == PatchException(UNRECOGNIZED_OPERATION_PREFIX + Render(opType))
  {
    if opType == Some("test") then Success(Test(path, value))
    else if opType == Some("replace") then Success(Replace(path, value))
    else if opType == Some("remove") then Success(Remove(path))
    else if opType == Some("add") then Success(Add(path, value))
    else if opType == Some("copy") then Success(Copy(from, path))
    else if opType == Some("move") then Success(Move(from, path))
    else Failure(PatchException(UNRECOGNIZED_OPERATION_PREFIX + Render(opType)))
  }

  /** The `from` member as the converter reads it: `null` when absent or not textual. */
  function FromOf(opNode: JsonNode): JString {
    var fromMember := Get(opNode, "from");
    if fromMember.Some? then TextValue(fromMember.value) else None
  }

  /**
    One element of the document: read `op`, then `path`, then resolve
    `value` (for every operation, `remove` included), read `from`, and
    dispatch on the operation type.
   */
  function ConvertOperation(mapper: ObjectMapper, opNode: JsonNode): (r: Result<PatchOperation, PatchError>)
    ensures r.Success? <==>
              && Get(opNode, "op").Some? && Get(opNode, "path").Some?
              && ValueFromJsonNode(mapper, TextValue(opNode.members["path"]), Get(opNode, "value")).Success?
              && TextValue(opNode.members["op"]).Some?
              && TextValue(opNode.members["op"]).value in OPERATION_TAGS
    ensures r.Success? ==>
              && opNode.ObjectNode?
              && TextValue(opNode.members["op"]) == Some(Tag(r.value))
              && r.value.path == TextValue(opNode.members["path"])
    ensures r.Success? && (r.value.Test? || r.value.Replace? || r.value.Add?) ==>
              ValueFromJsonNode(mapper, r.value.path, Get(opNode, "value")) == Success(r.value.value)
    ensures r.Success? && (r.value.Copy? || r.value.Move?) ==> r.value.from == FromOf(opNode)
  {
    match Get(opNode, "op")
    case None => Failure(MissingMember("op"))
    case Some(opMember) =>
      match Get(opNode, "path")
      case None => Failure(MissingMember("path"))
      case Some(pathMember) =>
        var opType := TextValue(opMember);
        var path := TextValue(pathMember);
        match ValueFromJsonNode(mapper, path, Get(opNode, "value"))
        case Failure(e) => Failure(e)
        case Success(value) => OperationOf(opType, path, value, FromOf(opNode))
  }

  /** The failures of one element, in the order the converter meets them. */
  lemma ConvertOperationErrors(mapper: ObjectMapper, opNode: JsonNode)
    ensures Get(opNode, "op").None? ==> ConvertOperation(mapper, opNode) == Failure(MissingMember("op"))
    ensures Get(opNode, "op").Some? && Get(opNode, "path").None? ==>
              ConvertOperation(mapper, opNode) == Failure(MissingMember("path"))
    ensures Get(opNode, "op").Some? && Get(opNode, "path").Some? && Get(opNode, "value").Some? &&
            opNode.members["value"].OtherNode? ==>
              ConvertOperation(mapper, opNode) ==
                Failure(PatchException(UnrecognizedValueNodeMessage(TextValue(opNode.members["path"]), opNode.members["value"])))
    ensures Get(opNode, "op").Some? && Get(opNode, "path").Some? &&
            (Get(opNode, "value").None? || !opNode.members["value"].OtherNode?) &&
            !(TextValue(opNode.members["op"]).Some? && TextValue(opNode.members["op"]).value in OPERATION_TAGS) ==>
              ConvertOperation(mapper, opNode) ==
                Failure(PatchException(UNRECOGNIZED_OPERATION_PREFIX + Render(TextValue(opNode.members["op"]))))
  {
  }

  /** `from` is read for every element, but only copy and move use it. */
  lemma FromOnlyUsedByCopyAndMove(mapper: ObjectMapper, opNode: JsonNode)
    requires opNode.ObjectNode?
    ensures var stripped := ObjectNode(opNode.members - {"from"});
            var r := ConvertOperation(mapper, opNode);
            var s := ConvertOperation(mapper, stripped);
            && (r.Success? <==> s.Success?)
            && (r.Success? && !r.value.Copy? && !r.value.Move? ==> s == r)
            && (s.Success? && (s.value.Copy? || s.value.Move?) ==> s.value.from == None)
  {
  }

  /** The operations of a sequence of elements, in order; the first failing element aborts the whole. */
  function ConvertAll(mapper: ObjectMapper, opNodes: seq<JsonNode>): Result<seq<PatchOperation>, PatchError>
    decreases |opNodes|
  {
    if opNodes == [] then Success([])
    else
      match ConvertOperation(mapper, opNodes[0])
      case Failure(e) => Failure(e)
      case Success(op) =>
        match ConvertAll(mapper, opNodes[1..])
        case Failure(e) => Failure(e)
        case Success(ops) => Success([op] + ops)
  }

  /** Success exactly when every element converts, with one operation per element, in document order. */
  lemma {:induction false} ConvertAllPreservesOrder(mapper: ObjectMapper, opNodes: seq<JsonNode>)
    ensures ConvertAll(mapper, opNodes).Success? <==>
              forall i :: 0 <= i < |opNodes| ==> ConvertOperation(mapper, opNodes[i]).Success?
    ensures ConvertAll(mapper, opNodes).Success? ==>
              var ops := ConvertAll(mapper, opNodes).value;
              |ops| == |opNodes| &&
              forall i :: 0 <= i < |opNodes| ==> ConvertOperation(mapper, opNodes[i]) == Success(ops[i])
  {
    if opNodes != [] {
      var rest := opNodes[1..];
      ConvertAllPreservesOrder(mapper, rest);
      assert forall i :: 1 <= i < |opNodes| ==> opNodes[i] == rest[i - 1];
      if ConvertAll(mapper, opNodes).Success? {
        var ops := ConvertAll(mapper, opNodes).value;
        assert ops == [ConvertOperation(mapper, opNodes[0]).value] + ConvertAll(mapper, rest).value;
      }
    }
  }

  /** All or nothing: the first element that fails decides the error, and no operation is returned. */
  lemma {:induction false} ConvertAllFailsAtFirstBadElement(mapper: ObjectMapper, opNodes: seq<JsonNode>, i: nat)
    requires i < |opNodes|
    requires forall j :: 0 <= j < i ==> ConvertOperation(mapper, opNodes[j]).Success?
    requires ConvertOperation(mapper, opNodes[i]).Failure?
    ensures ConvertAll(mapper, opNodes) == Failure(ConvertOperation(mapper, opNodes[i]).error)
  {
    if i > 0 {
      var rest := opNodes[1..];
      assert forall j :: 0 <= j < i - 1 ==> rest[j] == opNodes[j + 1];
      ConvertAllFailsAtFirstBadElement(mapper, rest, i - 1);
    }
  }

  /** `convert` as a function: anything but an array node is refused before any element is read. */
  function ConvertDocument(mapper: ObjectMapper, context: BindContext, jsonNode: JsonNode): (r: Result<Patch, PatchError>)
    ensures !jsonNode.ArrayNode? ==> r == Failure(IllegalArgument(NOT_AN_ARRAY_MESSAGE))
    ensures r.Success? ==> jsonNode.ArrayNode? && r.value.context == context
  {
    if !jsonNode.ArrayNode? then Failure(IllegalArgument(NOT_AN_ARRAY_MESSAGE))
    else
      match ConvertAll(mapper, jsonNode.elements)
      case Failure(e) => Failure(e)
      case Success(ops) => Success(Patch(ops, context))
  }

  /** An array converts exactly when every element does, into one operation per element, in document order. */
  lemma {:induction false} ConvertDocumentPreservesOrder(mapper: ObjectMapper, context: BindContext, opNodes: seq<JsonNode>)
    ensures ConvertDocument(mapper, context, ArrayNode(opNodes)).Success? <==>
              forall i :: 0 <= i < |opNodes| ==> ConvertOperation(mapper, opNodes[i]).Success?
    ensures ConvertDocument(mapper, context, ArrayNode(opNodes)).Success? ==>
              var ops := ConvertDocument(mapper, context, ArrayNode(opNodes)).value.operations;
              |ops| == |opNodes| &&
              forall i :: 0 <= i < |opNodes| ==> ConvertOperation(mapper, opNodes[i]) == Success(ops[i])
  {
    ConvertAllPreservesOrder(mapper, opNodes);
  }

  /** All or nothing: the first failing element of an array decides the error of the whole conversion. */
  lemma {:induction false} ConvertDocumentFailsAtFirstBadElement(mapper: ObjectMapper, context: BindContext, opNodes: seq<JsonNode>, i: nat)
    requires i < |opNodes|
    requires forall j :: 0 <= j < i ==> ConvertOperation(mapper, opNodes[j]).Success?
    requires ConvertOperation(mapper, opNodes[i]).Failure?
    ensures ConvertDocument(mapper, context, ArrayNode(opNodes)) == Failure(ConvertOperation(mapper, opNodes[i]).error)
  {
    ConvertAllFailsAtFirstBadElement(mapper, opNodes, i);
  }

  /** The converter: a mapper for deferred values and the binding context every patch it builds carries. */
  class JsonPatchPatchConverter {
    const mapper: ObjectMapper
    const context: BindContext

    constructor (mapper: ObjectMapper, context: BindContext)
      ensures this.mapper == mapper && this.context == context
    {
      this.mapper := mapper;
      this.context := context;
    }

    /**
      Builds the operation list element by element, appending in document
      order and returning on the first failure.
     */
    method Convert(jsonNode: JsonNode) returns (r: Result<Patch, PatchError>)
      ensures r == ConvertDocument(mapper, context, jsonNode)
      ensures !jsonNode.ArrayNode? ==> r == Failure(IllegalArgument(NOT_AN_ARRAY_MESSAGE))
      ensures r.Success? ==> r.value.context == context && |r.value.operations| == |jsonNode.elements|
    {
      if !jsonNode.ArrayNode? {
        return Failure(IllegalArgument(NOT_AN_ARRAY_MESSAGE));
      }
      var opNodes := jsonNode.elements;
      var ops: seq<PatchOperation> := [];
      var i := 0;
      while i < |opNodes|
        invariant 0 <= i <= |opNodes|
        invariant |ops| == i
        invariant forall k :: 0 <= k < i ==> ConvertOperation(mapper, opNodes[k]) == Success(ops[k])
      {
        var opNode := opNodes[i];
        var opMember := Get(opNode, "op");
        if opMember.None? {
          ConvertAllFailsAtFirstBadElement(mapper, opNodes, i);
          return Failure(MissingMember("op"));
        }
        var pathMember := Get(opNode, "path");
        if pathMember.None? {
          ConvertAllFailsAtFirstBadElement(mapper, opNodes, i);
          return Failure(MissingMember("path"));
        }
        var opType := TextValue(opMember.value);
        var path := TextValue(pathMember.value);
        var value := ValueFromJsonNode(mapper, path, Get(opNode, "value"));
        if value.Failure? {
          ConvertAllFailsAtFirstBadElement(mapper, opNodes, i);
          return Failure(value.error);
        }
        var fromMember := Get(opNode, "from");
        var from := if fromMember.Some? then TextValue(fromMember.value) else None;
        var op: PatchOperation;
        if opType == Some("test") {
          op := Test(path, value.value);
        } else if opType == Some("replace") {
          op := Replace(path, value.value);
        } else if opType == Some("remove") {
          op := Remove(path);
        } else if opType == Some("add") {
          op := Add(path, value.value);
        } else if opType == Some("copy") {
          op := Copy(from, path);
        } else if opType == Some("move") {
          op := Move(from, path);
        } else {
          ConvertAllFailsAtFirstBadElement(mapper, opNodes, i);
          return Failure(PatchException(UNRECOGNIZED_OPERATION_PREFIX + Render(opType)));
        }
        ops := ops + [op];
        i := i + 1;
      }
      ConvertAllPreservesOrder(mapper, opNodes);
      assert ConvertAll(mapper, opNodes).value == ops;
      return Success(Patch(ops, context));
    }
  }
}
