/** Worked documents: one add, one move, one unknown operation type. */
module JsonPatchExamples {
  import opened Wrappers
  import opened JsonNodes
  import opened Patches
  import opened JsonPatch

  /** `[{"op":"add","path":"/a","value":"x"}]` gives one add of "x" at /a. */
  lemma AddExample(mapper: ObjectMapper, context: BindContext)
    ensures var doc := ArrayNode([ObjectNode(map["op" := TextNode("add"), "path" := TextNode("/a"), "value" := TextNode("x")])]);
            ConvertDocument(mapper, context, doc) == Success(Patch([Add(Some("/a"), Str("x"))], context))
  {
    var element := ObjectNode(map["op" := TextNode("add"), "path" := TextNode("/a"), "value" := TextNode("x")]);
    assert Get(element, "op") == Some(TextNode("add"));
    assert Get(element, "path") == Some(TextNode("/a"));
    assert Get(element, "value") == Some(TextNode("x"));
    assert "add" != "test" && "add" != "replace" && "add" != "remove";
    assert ConvertOperation(mapper, element) == Success(Add(Some("/a"), Str("x")));
    ConvertAllPreservesOrder(mapper, [element]);
    assert ConvertAll(mapper, [element]).value == [Add(Some("/a"), Str("x"))];
  }

  /** `[{"op":"move","from":"/a","path":"/b"}]` gives one move from /a to /b. */
  lemma MoveExample(mapper: ObjectMapper, context: BindContext)
    ensures var doc := ArrayNode([ObjectNode(map["op" := TextNode("move"), "from" := TextNode("/a"), "path" := TextNode("/b")])]);
            ConvertDocument(mapper, context, doc) == Success(Patch([Move(Some("/a"), Some("/b"))], context))
  {
    var element := ObjectNode(map["op" := TextNode("move"), "from" := TextNode("/a"), "path" := TextNode("/b")]);
    assert Get(element, "op") == Some(TextNode("move"));
    assert Get(element, "path") == Some(TextNode("/b"));
    assert Get(element, "from") == Some(TextNode("/a"));
    assert Get(element, "value") == None;
    assert "move" != "test" && "move" != "replace" && "move" != "remove" && "move" != "add" && "move" != "copy";
    assert ConvertOperation(mapper, element) == Success(Move(Some("/a"), Some("/b")));
    ConvertAllPreservesOrder(mapper, [element]);
    assert ConvertAll(mapper, [element]).value == [Move(Some("/a"), Some("/b"))];
  }

  /** `[{"op":"bogus","path":"/a"}]` fails and names the unknown type. */
  lemma UnknownOperationExample(mapper: ObjectMapper, context: BindContext)
    ensures var doc := ArrayNode([ObjectNode(map["op" := TextNode("bogus"), "path" := TextNode("/a")])]);
            ConvertDocument(mapper, context, doc) == Failure(PatchException("Unrecognized operation type: bogus"))
  {
    var element := ObjectNode(map["op" := TextNode("bogus"), "path" := TextNode("/a")]);
    assert Get(element, "op") == Some(TextNode("bogus"));
    assert Get(element, "path") == Some(TextNode("/a"));
    assert Get(element, "value") == None;
    assert "bogus" !in OPERATION_TAGS;
    assert UNRECOGNIZED_OPERATION_PREFIX + Render(Some("bogus")) == "Unrecognized operation type: bogus";
    assert ConvertOperation(mapper, element) == Failure(PatchException("Unrecognized operation type: bogus"));
  }
}
