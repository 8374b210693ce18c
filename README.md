# JSON Patch to Patch conversion

A Dafny model of Spring Data REST's `JsonPatchPatchConverter`. It turns a JSON Patch document (RFC 6902) into a `Patch`: an ordered list of typed operations (test, replace, remove, add, copy, move, sections 4.1 to 4.6 of RFC 6902) together with the converter's `BindContext`.

- `json_node.dfy` (module `JsonNodes`): the Jackson tree as the converter sees it. A node carries the classification Jackson reports (null, textual, floating, boolean, int, long, object, array, other). It has `get(String)` and `textValue()`. A Java `String` that may be `null` is `JString = Option<string>`.
- `patch.dfy` (module `Patches`): materialized values, the six operations, `Patch` and the error kinds. It also holds `NodeOf`, the inverse of value materialization.
- `json_patch_patch_converter.dfy` (module `JsonPatch`): `valueFromJsonNode` is the pure function `ValueFromJsonNode`. The per-element read-and-dispatch is `ConvertOperation`; `FromOf` is its reading of the `from` member (null when absent or not textual). The recursive function `ConvertAll` models the `for` loop over the elements: it converts them in order and stops at the first failure. The whole conversion as a function is `ConvertDocument`. The converter is the class `JsonPatchPatchConverter`, which holds the mapper and the context. Its method `Convert` builds the list in a loop, as the source does, and is proved equal to `ConvertDocument`.
- `wire_form.dfy` (module `WireForm`): a reference writer from typed operations back to their RFC 6902 JSON form. It is used to prove that converting a written-out patch gives the same patch back.
- `examples.dfy`: three worked documents (an add, a move, an unknown operation type).
- `wrappers.dfy`: `Option` and `Result`.

Thrown exceptions are `Failure` results: `IllegalArgument` (the input is not an array) and `PatchException` (an unknown operation type, or a value node of an unsupported kind). The source throws a `NullPointerException` when an element has no `op` or no `path` member. It does the same when an element is not an object at all, because `get(String)` gives `null` on every non-object node. The model reports both as `MissingMember` (`MissingMember("op")` for a non-object element). Every failure aborts the whole conversion.

The model follows the code on three points:
- A deferred value captures the converter's `ObjectMapper` and the node (`new JsonLateObjectEvaluator(mapper, valueNode)`), not the binding context.
- An operation's `path` is not guaranteed to be non-null. A `path` member that is present but not textual reads as `null` through `textValue()`, and the operation carries it. In the same way, a non-textual `op` gives the message "Unrecognized operation type: null".
- The int and long cases follow the node's own kind. The range-based choice between them is made by the JSON parser, which is not part of this model.

Calling `Convert` twice on the same document gives equal results, because its result is the function `ConvertDocument` of the converter's fields and the input.

## Model

| member | source | states |
|---|---|---|
| JsonPatch.ValueFromJsonNode | spring-data-rest-webmvc/src/main/java/org/springframework/data/rest/webmvc/json/patch/JsonPatchPatchConverter.java:95-115 | Fails exactly on an unsupported node kind, with a message that names the path. On success the value stands for exactly the node given (an absent node counts as null). A deferred value wraps the node unchanged and carries the converter's mapper. |
| JsonPatch.UnrecognizedValueNodeMessageNamesPath | spring-data-rest-webmvc/src/main/java/org/springframework/data/rest/webmvc/json/patch/JsonPatchPatchConverter.java:113-114 | The unsupported-value message contains the path as rendered by `%s` (`null` for a null path). |
| JsonPatch.FloatingNeverIntegral | spring-data-rest-webmvc/src/main/java/org/springframework/data/rest/webmvc/json/patch/JsonPatchPatchConverter.java:101-108 | A floating node materializes as a double, never as an int or a long. |
| Patches.NodeOfInjective | spring-data-rest-webmvc/src/main/java/org/springframework/data/rest/webmvc/json/patch/JsonPatchPatchConverter.java:97-111 | Two values the converter can produce that stand for the same node are equal, so each node has one classification. |
| JsonPatch.OperationOf | spring-data-rest-webmvc/src/main/java/org/springframework/data/rest/webmvc/json/patch/JsonPatchPatchConverter.java:75-89 | Succeeds exactly for the six lowercase tags. The operation's tag is the op type and its path is the element's path. test, replace and add carry the value; copy and move carry `from`. Any other or null tag fails with "Unrecognized operation type: " followed by the tag. |
| JsonPatch.ConvertOperation | spring-data-rest-webmvc/src/main/java/org/springframework/data/rest/webmvc/json/patch/JsonPatchPatchConverter.java:66-89 | An element converts exactly when it has `op` and `path` members, its value is classifiable and its op type is one of the six tags. The result's tag and path are the element's `op` and `path` text, its value is the materialized `value` member, and its `from` is the `from` member. |
| JsonPatch.ConvertOperationErrors | spring-data-rest-webmvc/src/main/java/org/springframework/data/rest/webmvc/json/patch/JsonPatchPatchConverter.java:68-89 | Errors come in the order the source meets them: missing `op`, then missing `path`, then an unsupported value node (for any op type, `remove` and unknown types included), then an unknown op type. |
| JsonPatch.FromOnlyUsedByCopyAndMove | spring-data-rest-webmvc/src/main/java/org/springframework/data/rest/webmvc/json/patch/JsonPatchPatchConverter.java:73-86 | Removing the `from` member changes nothing for test, replace, remove and add. For copy and move without `from`, the source location is null. |
| JsonPatch.ConvertAllPreservesOrder | spring-data-rest-webmvc/src/main/java/org/springframework/data/rest/webmvc/json/patch/JsonPatchPatchConverter.java:62-90 | The list is built exactly when every element converts. It then has one operation per element, and the operation at position i is element i's conversion. |
| JsonPatch.ConvertAllFailsAtFirstBadElement | spring-data-rest-webmvc/src/main/java/org/springframework/data/rest/webmvc/json/patch/JsonPatchPatchConverter.java:64-90 | The first element that fails decides the error, and no operations are returned. |
| JsonPatch.ConvertDocument | spring-data-rest-webmvc/src/main/java/org/springframework/data/rest/webmvc/json/patch/JsonPatchPatchConverter.java:55-93 | A node that is not an array fails with "JsonNode must be an instance of ArrayNode". A successful result carries the given binding context. |
| JsonPatch.ConvertDocumentPreservesOrder | spring-data-rest-webmvc/src/main/java/org/springframework/data/rest/webmvc/json/patch/JsonPatchPatchConverter.java:62-92 | An array converts exactly when every element converts. The patch then has one operation per element, and the operation at position i is element i's conversion. |
| JsonPatch.ConvertDocumentFailsAtFirstBadElement | spring-data-rest-webmvc/src/main/java/org/springframework/data/rest/webmvc/json/patch/JsonPatchPatchConverter.java:64-90 | The first element of an array that fails decides the error of the whole conversion, and no patch is returned. |
| JsonPatch.JsonPatchPatchConverter.constructor | spring-data-rest-webmvc/src/main/java/org/springframework/data/rest/webmvc/json/patch/JsonPatchPatchConverter.java:41-47 | The converter keeps the mapper and the binding context it is given. |
| JsonPatch.JsonPatchPatchConverter.Convert | spring-data-rest-webmvc/src/main/java/org/springframework/data/rest/webmvc/json/patch/JsonPatchPatchConverter.java:55-93 | The in-place loop that appends one operation per element and returns on the first failure computes exactly `ConvertDocument` over the converter's mapper and context. Non-arrays are refused before any element is read. A success has one operation per element and the converter's context. |
| WireForm.ValueRoundTrip | spring-data-rest-webmvc/src/main/java/org/springframework/data/rest/webmvc/json/patch/JsonPatchPatchConverter.java:95-115 | Any value the converter can produce, written back as a JSON node, materializes to itself. |
| WireForm.OperationRoundTrip | spring-data-rest-webmvc/src/main/java/org/springframework/data/rest/webmvc/json/patch/JsonPatchPatchConverter.java:66-89 | Any operation, written as its RFC 6902 JSON object, converts back to itself. |
| WireForm.DocumentRoundTrip | spring-data-rest-webmvc/src/main/java/org/springframework/data/rest/webmvc/json/patch/JsonPatchPatchConverter.java:55-93 | Any list of operations, written as a JSON Patch array, converts back to the same operations in the same order, with the converter's context. |
| JsonPatchExamples.AddExample | spring-data-rest-webmvc/src/main/java/org/springframework/data/rest/webmvc/json/patch/JsonPatchPatchConverter.java:81-82 | `[{"op":"add","path":"/a","value":"x"}]` gives one add of "x" at /a. |
| JsonPatchExamples.MoveExample | spring-data-rest-webmvc/src/main/java/org/springframework/data/rest/webmvc/json/patch/JsonPatchPatchConverter.java:85-86 | `[{"op":"move","from":"/a","path":"/b"}]` gives one move from /a to /b. |
| JsonPatchExamples.UnknownOperationExample | spring-data-rest-webmvc/src/main/java/org/springframework/data/rest/webmvc/json/patch/JsonPatchPatchConverter.java:87-89 | `[{"op":"bogus","path":"/a"}]` fails with "Unrecognized operation type: bogus". |

## Left out

- Jackson's own classification predicates, `asText` and `asDouble`: a node comes with its kind and its payload. A floating literal is carried as is; its double-precision value is not modelled.
- The `toString()` of an unsupported value node is carried as a string field of that node. Jackson's serializer is not modelled.
- The resolution of a deferred value (`JsonLateObjectEvaluator`) against a target type is not part of this model. The deferred value is opaque here.
- A missing `op` or `path` member, which the source turns into a `NullPointerException`, is the `MissingMember` error. The model keeps where it aborts, not the exception type.
- Applying operations to a target object, and the operation classes' own factories and checks, are not part of this model. Operations are plain constructors here.
- The constructor's `Assert.notNull` on the mapper: mapper and context are opaque handles that cannot be null.
- `ObjectMapper` and `BindContext` are reduced to their identity.
- A `null` argument to `convert` cannot be expressed, because a node is always a value here. In the source it fails the `instanceof` test and gets the same `IllegalArgumentException` as any non-array node.
