/**
  The RFC 6902 wire form of a typed operation (section 4 of RFC 6902), used
  as the reference the converter is checked against: writing a patch out and
  converting it back gives the same patch.
 */
module WireForm {
  import opened Wrappers
  import opened JsonNodes
  import opened Patches
  import opened JsonPatch

  /** A pointer member: its text, or JSON null for a null reference. */
  function PointerNode(p: JString): JsonNode {
    if p.Some? then TextNode(p.value) else NullNode
  }

  /** The JSON object that describes one operation. */
  function OperationNode(op: PatchOperation): JsonNode {
    var head := map["op" := TextNode(Tag(op)), "path" := PointerNode(op.path)];
    match op
    case Test(_, v) => ObjectNode(head["value" := NodeOf(v)])
    case Replace(_, v) => ObjectNode(head["value" := NodeOf(v)])
    case Remove(_) => ObjectNode(head)
    case Add(_, v) => ObjectNode(head["value" := NodeOf(v)])
    case Copy(f, _) => ObjectNode(head["from" := PointerNode(f)])
    case Move(f, _) => ObjectNode(head["from" := PointerNode(f)])
  }

  /** The JSON array that describes a sequence of operations. */
  function DocumentNode(ops: seq<PatchOperation>): JsonNode {
    ArrayNode(seq(|ops|, i requires 0 <= i < |ops| => OperationNode(ops[i])))
  }

  /** An operation whose value, if any, the converter holding `mapper` could have produced. */
  predicate Convertible(mapper: ObjectMapper, op: PatchOperation) {
    (op.Test? || op.Replace? || op.Add?) ==> Materializable(mapper, op.value)
  }

  /** A value survives being written out and materialized again. */
  lemma ValueRoundTrip(mapper: ObjectMapper, path: JString, v: Value)
    requires Materializable(mapper, v)
    ensures ValueFromJsonNode(mapper, path, Some(NodeOf(v))) == Success(v)
  {
  }

  /** One operation survives being written out and converted again. */
  lemma OperationRoundTrip(mapper: ObjectMapper, op: PatchOperation)
    requires Convertible(mapper, op)
    ensures ConvertOperation(mapper, OperationNode(op)) == Success(op)
  {
  }

  /** A whole patch survives being written out and converted again, order and context included. */
  lemma DocumentRoundTrip(mapper: ObjectMapper, context: BindContext, ops: seq<PatchOperation>)
    requires forall i :: 0 <= i < |ops| ==> Convertible(mapper, ops[i])
    ensures ConvertDocument(mapper, context, DocumentNode(ops)) == Success(Patch(ops, context))
  {
    var elements := DocumentNode(ops).elements;
    forall i | 0 <= i < |ops|
      ensures ConvertOperation(mapper, elements[i]) == Success(ops[i])
    {
      OperationRoundTrip(mapper, ops[i]);
    }
    ConvertAllPreservesOrder(mapper, elements);
    assert ConvertAll(mapper, elements).value == ops;
  }
}
