/** The tools schema: a list of tool definitions, each with a trimmed
    non-empty id, a trimmed JSON text and an enabled switch. */
module ToolsSchema {
  import opened Wrappers
  import opened Json
  import opened Text

  /** One validated tool definition. */
  datatype Tool = Tool(id: string, json: string, enabled: bool)

  /** One element of the `tools` array. The strings are trimmed before they
      are checked; `isJson` is "`JSON.parse` does not throw". */
  function ValidateTool(element: Json, isJson: string -> bool): (r: Option<Tool>)
    ensures r.Some? ==> |r.value.id| >= 1 && isJson(r.value.json)
    ensures r.Some? ==>
      && Get(element, "id").Some? && Get(element, "id").value.JString?
      && Get(element, "json").Some? && Get(element, "json").value.JString?
      && r.value.id == Trim(Get(element, "id").value.s)
      && r.value.json == Trim(Get(element, "json").value.s)
      && Get(element, "enabled") == Some(JBool(r.value.enabled))
  {
    match (Get(element, "id"), Get(element, "json"), Get(element, "enabled"))
    case (Some(JString(id)), Some(JString(json)), Some(JBool(enabled))) => CheckTool(id, json, enabled, isJson)
    case _ => None
  }

  /** The checks on the fields once their types are right. */
  function CheckTool(id: string, json: string, enabled: bool, isJson: string -> bool): Option<Tool>
  {
    if |Trim(id)| >= 1 && isJson(Trim(json)) then Some(Tool(Trim(id), Trim(json), enabled)) else None
  }

  /** What the schema makes of an element whose three fields have the right
      types: the id and the JSON text are trimmed, the trimmed id must not be
      empty and the trimmed text must parse; `enabled` is carried through;
      every other key is dropped. */
  lemma ValidateToolOf(extra: map<string, Json>, id: string, json: string, enabled: bool, isJson: string -> bool)
    ensures ValidateTool(JObject(extra["id" := JString(id)]["json" := JString(json)]["enabled" := JBool(enabled)]), isJson)
         == if |Trim(id)| >= 1 && isJson(Trim(json)) then Some(Tool(Trim(id), Trim(json), enabled)) else None
  {
    var e := JObject(extra["id" := JString(id)]["json" := JString(json)]["enabled" := JBool(enabled)]);
    assert Get(e, "id") == Some(JString(id));
    assert Get(e, "json") == Some(JString(json));
    assert Get(e, "enabled") == Some(JBool(enabled));
  }

  /** An element that is not an object, lacks a field, has an `id` or a
      `json` that is not a string, or an `enabled` that is not a boolean is
      rejected. */
  lemma MistypedToolRejected(element: Json, isJson: string -> bool)
    requires || !(Get(element, "id").Some? && Get(element, "id").value.JString?)
             || !(Get(element, "json").Some? && Get(element, "json").value.JString?)
             || !(Get(element, "enabled").Some? && Get(element, "enabled").value.JBool?)
    ensures ValidateTool(element, isJson) == None
  {
  }

  /** `z.array(element)`: an array of any length is accepted exactly when
      every element is, and the output holds the elements' outputs in
      order. */
  function ValidateArray<T>(elements: seq<Json>, element: Json -> Option<T>): (r: Option<seq<T>>)
    ensures r.Some? <==> forall k :: 0 <= k < |elements| ==> element(elements[k]).Some?
    ensures r.Some? ==>
      && |r.value| == |elements|
      && forall k :: 0 <= k < |elements| ==> element(elements[k]) == Some(r.value[k])
    decreases |elements|
  {
    if elements == [] then Some([])
    else
      var front := ValidateArray(elements[..|elements| - 1], element);
      var last := element(elements[|elements| - 1]);
      if front.Some? && last.Some? then Some(front.value + [last.value]) else None
  }

  /** `ToolsSchema.safeParse(input)`, reduced to its outcome: `tools` must be
      an array whose every element validates, and the output holds one tool
      per element, in order. */
  function ValidateTools(input: Json, isJson: string -> bool): (r: Option<seq<Tool>>)
    ensures r.Some? <==>
      && Get(input, "tools").Some? && Get(input, "tools").value.JArray?
      && forall k :: 0 <= k < |Get(input, "tools").value.items| ==>
           ValidateTool(Get(input, "tools").value.items[k], isJson).Some?
    ensures r.Some? ==>
      && |r.value| == |Get(input, "tools").value.items|
      && forall k :: 0 <= k < |r.value| ==>
           ValidateTool(Get(input, "tools").value.items[k], isJson) == Some(r.value[k])
  {
    match Get(input, "tools")
    case Some(JArray(elements)) => ValidateArray(elements, e => ValidateTool(e, isJson))
    case _ => None
  }

  function ToolJson(tool: Tool): Json
  {
    JObject(map["id" := JString(tool.id), "json" := JString(tool.json), "enabled" := JBool(tool.enabled)])
  }

  /** Validated tools written back as the object they are stored as. */
  function ToolsJson(tools: seq<Tool>): Json
  {
    JObject(map["tools" := JArray(seq(|tools|, k requires 0 <= k < |tools| => ToolJson(tools[k])))])
  }

  /** A tool as the schema outputs it: a trimmed non-empty id, a trimmed
      JSON text. */
  predicate Normalised(tool: Tool, isJson: string -> bool)
  {
    |tool.id| >= 1 && Trim(tool.id) == tool.id && Trim(tool.json) == tool.json && isJson(tool.json)
  }

  /** Every validated tool is normalised. */
  lemma ValidatedToolNormalised(element: Json, isJson: string -> bool)
    requires ValidateTool(element, isJson).Some?
    ensures Normalised(ValidateTool(element, isJson).value, isJson)
  {
    var id := Get(element, "id").value.s;
    var json := Get(element, "json").value.s;
    TrimIdempotent(id);
    TrimIdempotent(json);
  }

  /** A normalised tool, written back, validates to itself. */
  lemma NormalisedToolRevalidates(tool: Tool, isJson: string -> bool)
    requires Normalised(tool, isJson)
    ensures ValidateTool(ToolJson(tool), isJson) == Some(tool)
  {
    var e := ToolJson(tool);
    assert ValidateTool(e, isJson) == CheckTool(tool.id, tool.json, tool.enabled, isJson) by {
      assert Get(e, "id") == Some(JString(tool.id));
      assert Get(e, "json") == Some(JString(tool.json));
      assert Get(e, "enabled") == Some(JBool(tool.enabled));
    }
  }

  /** Normalised tools, written back, validate to themselves. */
  lemma NormalisedToolsRevalidate(tools: seq<Tool>, isJson: string -> bool)
    requires forall k :: 0 <= k < |tools| ==> Normalised(tools[k], isJson)
    ensures ValidateTools(ToolsJson(tools), isJson) == Some(tools)
  {
    var elements := seq(|tools|, k requires 0 <= k < |tools| => ToolJson(tools[k]));
    var output := ToolsJson(tools);
    assert Get(output, "tools") == Some(JArray(elements));
    forall k | 0 <= k < |tools|
      ensures ValidateTool(elements[k], isJson) == Some(tools[k])
    {
      NormalisedToolRevalidates(tools[k], isJson);
    }
    var again := ValidateTools(output, isJson);
    assert again.Some?;
    assert again.value == tools;
  }

  /** The output holds trimmed strings, so validating it again succeeds and
      gives the same tools. */
  lemma ValidationIdempotent(input: Json, isJson: string -> bool)
    requires ValidateTools(input, isJson).Some?
    ensures ValidateTools(ToolsJson(ValidateTools(input, isJson).value), isJson) == ValidateTools(input, isJson)
  {
    var original := Get(input, "tools").value.items;
    var tools := ValidateTools(input, isJson).value;
    forall k | 0 <= k < |tools|
      ensures Normalised(tools[k], isJson)
    {
      ValidatedToolNormalised(original[k], isJson);
    }
    NormalisedToolsRevalidate(tools, isJson);
  }


}
