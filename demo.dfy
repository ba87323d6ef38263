/**
  The demo-argument synthesis of `_get_demo_arguments` and
  `_generate_demo_value`: one placeholder value per property of a tool's input
  schema, chosen from the property's declared type and, for integers and
  strings, from its name.
 */
module Demo {
  import opened Wrappers
  import opened Strings
  import opened Json

  /** The declared types `_generate_demo_value` has a value for. */
  const HandledTypes: set<Json> := {JStr("integer"), JStr("string"), JStr("boolean"), JStr("array"), JStr("object")}

  /** The JSON Schema type name of a value (numbers are all integers here). */
  function SchemaTypeOf(v: Json): (name: string) {
    match v
    case JNull => "null"
    case JBool(_) => "boolean"
    case JNum(_) => "integer"
    case JStr(_) => "string"
    case JArr(_) => "array"
    case JObj(_) => "object"
  }

  /** `_generate_demo_value`: a value of the declared type for the five handled
      types, `None` for any other declaration. */
  function DemoValue(propName: string, propType: Json): (v: Json)
    ensures propType in HandledTypes ==> JStr(SchemaTypeOf(v)) == propType
    ensures propType !in HandledTypes ==> v == JNull
  {
    if propType == JStr("integer") then
      if Contains(propName, "num") then JNum(42) else JNum(10)
    else if propType == JStr("string") then
      if Contains(Lower(propName), "name") then JStr("demo_object")
      else if Contains(Lower(propName), "filter") then JStr("")
      else JStr("demo_value")
    else if propType == JStr("boolean") then JBool(true)
    else if propType == JStr("array") then JArr([])
    else if propType == JStr("object") then EmptyObject
    else JNull
  }

  /** A string value is chosen from the lower-cased name, so the case of the
      name does not matter; the integer choice tests `num` without lower-casing. */
  lemma DemoNameCase(propName: string)
    ensures DemoValue(Lower(propName), JStr("string")) == DemoValue(propName, JStr("string"))
    ensures DemoValue("num", JStr("integer")) == JNum(42)
    ensures DemoValue("NUM", JStr("integer")) == JNum(10)
  {
    LowerIdempotent(propName);
    assert Contains("num", "num") by {
      assert "num"[..3] == "num";
    }
    assert !Contains("NUM", "num") by {
      assert !StartsWith("NUM", "num") by {
        assert "NUM"[..3][0] == 'N' && "num"[0] == 'n';
      }
      assert "NUM"[1..] == "UM" && "UM"[1..] == "M" && "M"[1..] == "";
    }
  }

  /** The value for one property: its `type`, `"string"` when none is declared. */
  function DemoArgument(propName: string, info: Json): (v: Json)
    requires info.JObj?
    ensures "type" !in info.fields ==> v.JStr?
    ensures v == JNull <==> "type" in info.fields && info.fields["type"] !in HandledTypes
  {
    DemoValue(propName, if "type" in info.fields then info.fields["type"] else JStr("string"))
  }

  /** `tool.get("inputSchema", {}).get("properties", {})`, which must be a dict to have `.items()`. */
  function SchemaProperties(tool: Json): (r: Outcome<map<string, Json>>)
    requires tool.JObj?
    ensures r.Raises? ==> r.error == AttributeError
  {
    match Get(tool, "inputSchema", EmptyObject)
    case Raises(e) => Raises(e)
    case Returns(schema) =>
      match Get(schema, "properties", EmptyObject)
      case Raises(e) => Raises(e)
      case Returns(props) => if props.JObj? then Returns(props.fields) else Raises(AttributeError)
  }

  /** `_get_demo_arguments`: a dict with one demo value per schema property; an
      entry of the schema that is not a dict raises as `.get` does in Python. */
  method DemoArguments(tool: Json) returns (args: Outcome<map<string, Json>>)
    requires tool.JObj?
    ensures SchemaProperties(tool).Raises? ==> args == Raises(AttributeError)
    ensures SchemaProperties(tool).Returns? ==>
      var props := SchemaProperties(tool).value;
      && (args.Returns? <==> forall name :: name in props ==> props[name].JObj?)
      && (args.Raises? ==> args.error == AttributeError)
      && (args.Returns? ==> args.value.Keys == props.Keys)
      && (args.Returns? ==> forall name :: name in props ==>
            props[name].JObj? && args.value[name] == DemoArgument(name, props[name]))
  {
    var schema := if "inputSchema" in tool.fields then tool.fields["inputSchema"] else EmptyObject;
    if !schema.JObj? {
      return Raises(AttributeError);
    }
    var props := if "properties" in schema.fields then schema.fields["properties"] else EmptyObject;
    if !props.JObj? {
      return Raises(AttributeError);
    }
    var arguments: map<string, Json> := map[];
    var remaining := props.fields.Keys;
    while remaining != {}
      invariant remaining <= props.fields.Keys
      invariant arguments.Keys == props.fields.Keys - remaining
      invariant forall name :: name in arguments ==>
        props.fields[name].JObj? && arguments[name] == DemoArgument(name, props.fields[name])
      decreases remaining
    {
      var name :| name in remaining;
      var info := props.fields[name];
      if !info.JObj? {
        return Raises(AttributeError);
      }
      arguments := arguments[name := DemoArgument(name, info)];
      remaining := remaining - {name};
    }
    args := Returns(arguments);
  }
}
