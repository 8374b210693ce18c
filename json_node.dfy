/**
  The Jackson JSON tree as the converter sees it: each node carries the
  classification that Jackson's `isTextual`, `isFloatingPointNumber`,
  `isBoolean`, `isInt`, `isLong`, `isObject` and `isArray` report, and the
  two accessors the converter uses, `get(String)` and `textValue()`.
 */
module JsonNodes {
  import opened Wrappers

  /** Java `int`. */
  newtype int32 = x: int | -0x8000_0000 <= x < 0x8000_0000

  /** Java `long`. */
  newtype int64 = x: int | -0x8000_0000_0000_0000 <= x < 0x8000_0000_0000_0000

  /** A floating-point literal, carried as it stands; its precision is not modelled. */
  datatype FloatLiteral = FloatLiteral(digits: string)

  datatype JsonNode =
    | NullNode
    | TextNode(text: string)
      /** float, double and BigDecimal nodes (`isFloatingPointNumber`) */
    | FloatingNode(literal: FloatLiteral)
    | BooleanNode(truth: bool)
      /** `isInt` holds of int nodes only */
    | IntNode(intValue: int32)
      /** `isLong` holds of long nodes only */
    | LongNode(longValue: int64)
    | ObjectNode(members: map<string, JsonNode>)
    | ArrayNode(elements: seq<JsonNode>)
      /** any other node (BigInteger, short, binary, POJO, missing), with its `toString()` */
    | OtherNode(rendered: string)

  /** A Java `String` reference: `None` is `null`. */
  type JString = Option<string>

  /** `JsonNode.get(name)`: the member of an object node, `null` on a missing member or any other node. */
  function Get(node: JsonNode, name: string): Option<JsonNode> {
    if node.ObjectNode? && name in node.members then Some(node.members[name]) else None
  }

  /** `JsonNode.textValue()`: the string of a textual node, `null` for every other node. */
  function TextValue(node: JsonNode): JString {
    if node.TextNode? then Some(node.text) else None
  }

  /** How Java string concatenation and `%s` render a `String` reference. */
  function Render(s: JString): string {
    if s.Some? then s.value else "null"
  }
}
