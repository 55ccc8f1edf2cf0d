/**
 * `update_settings_from_function_choice_configuration`: how the framework's
 * function-choice behaviour becomes Bedrock's `toolChoice` and `tools`
 * request settings.
 */
module FunctionChoice {
  import opened Wrappers
  import opened Values

  datatype FunctionChoiceType = NoneType | Auto | Required

  /** A kernel function parameter; `schemaData` is its JSON schema, carried as it is. */
  datatype ParameterMetadata = ParameterMetadata(name: string, isRequired: bool, schemaData: Value)

  /** A kernel function as offered to the model. */
  datatype FunctionMetadata = FunctionMetadata(
    fullyQualifiedName: string,
    description: Option<string>,
    parameters: seq<ParameterMetadata>)

  /** The configuration the function-choice behaviour computed; the list may be missing. */
  datatype FunctionCallChoiceConfiguration =
    FunctionCallChoiceConfiguration(availableFunctions: Option<seq<FunctionMetadata>>)

  /** The Bedrock chat settings the update writes to; `None` means "not set". */
  class BedrockChatSettings {
    var toolChoice: Option<Value>
    var tools: Option<seq<Value>>

    constructor ()
      ensures toolChoice == None && tools == None
    {
      toolChoice := None;
      tools := None;
    }
  }

  /** The available functions, an absent list read as an empty one. */
  function Available(config: FunctionCallChoiceConfiguration): seq<FunctionMetadata>
  {
    match config.availableFunctions
    case Some(functions) => functions
    case None => []
  }

  /** The parameter names, in parameter order. */
  function Names(parameters: seq<ParameterMetadata>): seq<string>
  {
    seq(|parameters|, i requires 0 <= i < |parameters| => parameters[i].name)
  }

  /**
   * `[p.name for p in parameters if p.is_required]`: the names of the
   * required parameters, in parameter order.
   */
  function RequiredNames(parameters: seq<ParameterMetadata>): (names: seq<string>)
    ensures |names| <= |parameters|
    ensures forall n :: n in names <==> exists i :: 0 <= i < |parameters| && parameters[i].isRequired && parameters[i].name == n
    ensures IsSubsequence(names, Names(parameters))
  {
    if parameters == [] then []
    else
      var p := parameters[0];
      var rest := RequiredNames(parameters[1..]);
      assert Names(parameters) == [p.name] + Names(parameters[1..]);
      assert Names(parameters)[1..] == Names(parameters[1..]);
      assert forall i :: 1 <= i < |parameters| ==> parameters[i] == parameters[1..][i - 1];
      if p.isRequired then
        var names := [p.name] + rest;
        assert names[1..] == rest;
        names
      else
        SubsequenceCons(rest, Names(parameters[1..]), p.name);
        rest
  }

  /** `{param.name: param.schema_data for param in parameters}`, built one assignment at a time. */
  function Properties(parameters: seq<ParameterMetadata>): seq<Field>
  {
    if parameters == [] then []
    else
      var n := |parameters| - 1;
      SetKey(Properties(parameters[..n]), parameters[n].name, parameters[n].schemaData)
  }

  /**
   * `idx` lists, in increasing order, exactly the positions of the required
   * parameters, and `names` holds their names position by position.
   */
  predicate RequiredPositions(parameters: seq<ParameterMetadata>, names: seq<string>, idx: seq<int>)
  {
    PositionsNamed(parameters, names, idx) && Increasing(idx) && CoversRequired(parameters, idx)
  }

  /** `names[k]` is the name of the parameter at position `idx[k]`. */
  predicate PositionsNamed(parameters: seq<ParameterMetadata>, names: seq<string>, idx: seq<int>)
  {
    |idx| == |names| &&
    forall k :: 0 <= k < |idx| ==> 0 <= idx[k] < |parameters| && names[k] == parameters[idx[k]].name
  }

  predicate Increasing(idx: seq<int>)
  {
    forall k :: 0 <= k < |idx| - 1 ==> idx[k] < idx[k + 1]
  }

  /** A position is listed exactly when the parameter there is required. */
  predicate CoversRequired(parameters: seq<ParameterMetadata>, idx: seq<int>)
  {
    forall i :: 0 <= i < |parameters| ==> (parameters[i].isRequired <==> i in idx)
  }

  /**
   * The required positions of `[p] + tail`, given those of `tail`: each one
   * moved a place to the right, with position 0 in front when `p` is required.
   */
  function ConsPositions(required: bool, idx: seq<int>): (w: seq<int>)
    ensures |w| == |idx| + (if required then 1 else 0)
  {
    var d := if required then 1 else 0;
    seq(|idx| + d, k requires 0 <= k < |idx| + d => if k < d then 0 else idx[k - d] + 1)
  }

  /** The names of the required parameters of `[p] + tail`, given those of `tail`. */
  function ConsNames(p: ParameterMetadata, rest: seq<string>): seq<string>
  {
    if p.isRequired then [p.name] + rest else rest
  }

  lemma ConsPositionsNamed(p: ParameterMetadata, tail: seq<ParameterMetadata>, rest: seq<string>, idx: seq<int>)
    requires PositionsNamed(tail, rest, idx)
    ensures PositionsNamed([p] + tail, ConsNames(p, rest), ConsPositions(p.isRequired, idx))
  {
    var parameters := [p] + tail;
    var names := ConsNames(p, rest);
    var w := ConsPositions(p.isRequired, idx);
    var d := if p.isRequired then 1 else 0;
    forall k | 0 <= k < |w|
      ensures 0 <= w[k] < |parameters| && names[k] == parameters[w[k]].name
    {
      if k >= d {
        assert w[k] == idx[k - d] + 1 && names[k] == rest[k - d];
        assert parameters[w[k]] == tail[idx[k - d]];
      }
    }
  }

  lemma ConsIncreasing(required: bool, idx: seq<int>)
    requires Increasing(idx) && forall k :: 0 <= k < |idx| ==> 0 <= idx[k]
    ensures Increasing(ConsPositions(required, idx))
  {
    var w := ConsPositions(required, idx);
    var d := if required then 1 else 0;
    forall k | 0 <= k < |w| - 1 ensures w[k] < w[k + 1] {
      assert w[k + 1] == idx[k + 1 - d] + 1;
    }
  }

  lemma ConsCoversRequired(p: ParameterMetadata, tail: seq<ParameterMetadata>, idx: seq<int>)
    requires CoversRequired(tail, idx) && forall k :: 0 <= k < |idx| ==> 0 <= idx[k]
    ensures CoversRequired([p] + tail, ConsPositions(p.isRequired, idx))
  {
    forall i | 0 <= i < |tail| + 1
      ensures ([p] + tail)[i].isRequired <==> i in ConsPositions(p.isRequired, idx)
    {
      PositionShifted(p, tail, idx, i);
    }
  }

  /** Position `i` of `[p] + tail` is among the new positions exactly when that parameter is required. */
  lemma PositionShifted(p: ParameterMetadata, tail: seq<ParameterMetadata>, idx: seq<int>, i: int)
    requires CoversRequired(tail, idx) && forall k :: 0 <= k < |idx| ==> 0 <= idx[k]
    requires 0 <= i <= |tail|
    ensures ([p] + tail)[i].isRequired <==> i in ConsPositions(p.isRequired, idx)
  {
    var w := ConsPositions(p.isRequired, idx);
    var d := if p.isRequired then 1 else 0;
    if i == 0 {
      if p.isRequired {
        assert w[0] == 0;
      } else {
        forall k | 0 <= k < |w| ensures w[k] != 0 {
          assert w[k] == idx[k] + 1;
        }
      }
    } else {
      assert ([p] + tail)[i] == tail[i - 1];
      if i - 1 in idx {
        var k :| 0 <= k < |idx| && idx[k] == i - 1;
        assert w[k + d] == i;
      }
      if i in w {
        var k :| 0 <= k < |w| && w[k] == i;
        assert k >= d && idx[k - d] == i - 1;
      }
    }
  }

  /** Putting a parameter in front keeps the positions right. */
  lemma RequiredPositionsCons(p: ParameterMetadata, tail: seq<ParameterMetadata>, rest: seq<string>, idx: seq<int>)
    requires RequiredPositions(tail, rest, idx)
    ensures RequiredPositions([p] + tail, ConsNames(p, rest), ConsPositions(p.isRequired, idx))
  {
    ConsPositionsNamed(p, tail, rest, idx);
    ConsIncreasing(p.isRequired, idx);
    ConsCoversRequired(p, tail, idx);
  }

  /**
   * The `required` list is exactly the names of the required parameters, one
   * per required parameter and in parameter order, even when names repeat.
   */
  lemma {:induction false} RequiredNamesPositions(parameters: seq<ParameterMetadata>)
    ensures exists idx :: RequiredPositions(parameters, RequiredNames(parameters), idx)
  {
    if parameters == [] {
      assert RequiredNames(parameters) == [];
      assert RequiredPositions(parameters, [], []);
    } else {
      var tail := parameters[1..];
      RequiredNamesPositions(tail);
      var idx :| RequiredPositions(tail, RequiredNames(tail), idx);
      assert parameters == [parameters[0]] + tail;
      RequiredPositionsCons(parameters[0], tail, RequiredNames(tail), idx);
      assert RequiredNames(parameters) == ConsNames(parameters[0], RequiredNames(tail));
    }
  }

  /** The properties dictionary has no duplicate key. */
  lemma {:induction false} PropertiesDistinct(parameters: seq<ParameterMetadata>)
    ensures DistinctKeys(Properties(parameters))
  {
    if parameters != [] {
      var n := |parameters| - 1;
      PropertiesDistinct(parameters[..n]);
      SetKeyDistinct(Properties(parameters[..n]), parameters[n].name, parameters[n].schemaData);
    }
  }

  /** The names of all parameters are those of all but the last, then the last one's. */
  lemma NamesInit(parameters: seq<ParameterMetadata>)
    requires |parameters| > 0
    ensures Names(parameters) == Names(parameters[..|parameters| - 1]) + [parameters[|parameters| - 1].name]
  {
    var n := |parameters| - 1;
    var names := Names(parameters[..n]) + [parameters[n].name];
    forall i | 0 <= i < |parameters| ensures names[i] == Names(parameters)[i] {
      if i < n {
        assert parameters[..n][i] == parameters[i];
      }
    }
  }

  /** Its keys are exactly the parameter names. */
  lemma {:induction false} PropertiesKeys(parameters: seq<ParameterMetadata>)
    ensures forall k :: k in Keys(Properties(parameters)) <==> k in Names(parameters)
  {
    if parameters != [] {
      var n := |parameters| - 1;
      var init := parameters[..n];
      PropertiesKeys(init);
      SetKeyKeys(Properties(init), parameters[n].name, parameters[n].schemaData);
      NamesInit(parameters);
    }
  }

  /** Each name is bound to the schema of the last parameter with that name. */
  lemma PropertiesValues(parameters: seq<ParameterMetadata>)
    ensures forall i :: 0 <= i < |parameters| && LastWithName(parameters, i) ==>
              Get(Properties(parameters), parameters[i].name) == Some(parameters[i].schemaData)
  {
    forall i | 0 <= i < |parameters| && LastWithName(parameters, i)
      ensures Get(Properties(parameters), parameters[i].name) == Some(parameters[i].schemaData)
    {
      PropertiesValueAt(parameters, i);
    }
  }

  /** The last parameter's schema is what its name is bound to. */
  lemma PropertiesLast(parameters: seq<ParameterMetadata>)
    requires |parameters| > 0
    ensures var last := parameters[|parameters| - 1];
      Get(Properties(parameters), last.name) == Some(last.schemaData)
  {
    var n := |parameters| - 1;
    SetKeyGet(Properties(parameters[..n]), parameters[n].name, parameters[n].schemaData, parameters[n].name);
  }

  /** A name other than the last parameter's reads as it did before that parameter. */
  lemma PropertiesSkipLast(parameters: seq<ParameterMetadata>, k: string)
    requires |parameters| > 0 && parameters[|parameters| - 1].name != k
    ensures Get(Properties(parameters), k) == Get(Properties(parameters[..|parameters| - 1]), k)
  {
    var n := |parameters| - 1;
    SetKeyGet(Properties(parameters[..n]), parameters[n].name, parameters[n].schemaData, k);
  }

  /** Dropping the last parameter keeps an earlier parameter the last with its name. */
  lemma LastWithNameInit(parameters: seq<ParameterMetadata>, i: nat)
    requires i < |parameters| - 1 && LastWithName(parameters, i)
    ensures parameters[|parameters| - 1].name != parameters[i].name
    ensures parameters[..|parameters| - 1][i] == parameters[i]
    ensures LastWithName(parameters[..|parameters| - 1], i)
  {
    var n := |parameters| - 1;
    var init := parameters[..n];
    forall j | i < j < n ensures init[j].name != init[i].name {
      assert init[j] == parameters[j];
    }
  }

  lemma {:induction false} PropertiesValueAt(parameters: seq<ParameterMetadata>, i: nat)
    requires i < |parameters| && LastWithName(parameters, i)
    ensures Get(Properties(parameters), parameters[i].name) == Some(parameters[i].schemaData)
    decreases |parameters|, 1
  {
    if i < |parameters| - 1 {
      PropertiesValueBefore(parameters, i);
    } else {
      PropertiesLast(parameters);
    }
  }

  /** The case of a parameter before the last one: the last assignment does not touch its name. */
  lemma {:induction false} PropertiesValueBefore(parameters: seq<ParameterMetadata>, i: nat)
    requires i < |parameters| - 1 && LastWithName(parameters, i)
    ensures Get(Properties(parameters), parameters[i].name) == Some(parameters[i].schemaData)
    decreases |parameters|, 0
  {
    var init := parameters[..|parameters| - 1];
    LastWithNameInit(parameters, i);
    PropertiesValueAt(init, i);
    PropertiesSkipLast(parameters, parameters[i].name);
  }

  /** No parameter after position `i` has the same name. */
  predicate LastWithName(parameters: seq<ParameterMetadata>, i: int)
    requires 0 <= i < |parameters|
  {
    forall j :: i < j < |parameters| ==> parameters[j].name != parameters[i].name
  }

  /** The list of required names as a value. */
  function StrList(names: seq<string>): (v: Value)
    ensures v.List? && |v.items| == |names|
    ensures forall i :: 0 <= i < |names| ==> v.items[i] == Str(names[i])
  {
    List(seq(|names|, i requires 0 <= i < |names| => Str(names[i])))
  }

  /** The `toolSpec` entry for one function. */
  function ToolSpec(f: FunctionMetadata): Value
  {
    Single("toolSpec", Dict([
      Field("name", Str(f.fullyQualifiedName)),
      Field("description", Str(match f.description case Some(d) => d case None => "")),
      Field("inputSchema", Single("json", Dict([
        Field("type", Str("object")),
        Field("properties", Dict(Properties(f.parameters))),
        Field("required", StrList(RequiredNames(f.parameters)))])))]))
  }

  /** The `tools` list: one `toolSpec` per available function, in order. */
  function ToolSpecs(functions: seq<FunctionMetadata>): seq<Value>
  {
    seq(|functions|, i requires 0 <= i < |functions| => ToolSpec(functions[i]))
  }

  /**
   * The `toolChoice` for a type other than NONE when functions are
   * available. It is a valid Bedrock mode; it obliges the model to call a
   * tool exactly when the type is REQUIRED, and either way every available
   * function stays callable. With one function, REQUIRED names it; with
   * several, it asks for any.
   */
  function ToolChoiceFor(choice: FunctionChoiceType, functions: seq<FunctionMetadata>): (v: Value)
    requires choice != NoneType && |functions| > 0
    ensures var mode := DecodeToolChoice(v);
      && mode.Some?
      && (ForcesToolCall(mode.value) <==> choice == Required)
      && CallableTools(mode.value, FunctionNames(functions)) == FunctionNames(functions)
      && (choice == Required && |functions| == 1 ==> mode.value == SpecificTool(functions[0].fullyQualifiedName))
      && (choice == Required && |functions| > 1 ==> mode.value == AnyChoice)
  {
    assert |functions| == 1 ==> functions == [functions[0]];
    if choice == Auto then Single("auto", Dict([]))
    else if |functions| > 1 then Single("any", Dict([]))
    else Single("tool", Single("name", Str(functions[0].fullyQualifiedName)))
  }

  /** `update_settings_from_function_choice_configuration` */
  method UpdateSettingsFromFunctionChoiceConfiguration(
    config: FunctionCallChoiceConfiguration,
    settings: BedrockChatSettings,
    choice: FunctionChoiceType)
    modifies settings
    ensures choice == NoneType || Available(config) == [] ==>
              settings.toolChoice == old(settings.toolChoice) && settings.tools == old(settings.tools)
    ensures choice != NoneType && Available(config) != [] ==>
              && settings.toolChoice == Some(ToolChoiceFor(choice, Available(config)))
              && settings.tools == Some(ToolSpecs(Available(config)))
  {
    if choice == NoneType {
      return;
    }
    if config.availableFunctions.Some? && config.availableFunctions.value != [] {
      var functions := config.availableFunctions.value;
      if choice == Auto {
        settings.toolChoice := Some(Single("auto", Dict([])));
      } else if choice == Required {
        if |functions| > 1 {
          settings.toolChoice := Some(Single("any", Dict([])));
        } else {
          settings.toolChoice := Some(Single("tool", Single("name", Str(functions[0].fullyQualifiedName))));
        }
      }
      settings.tools := Some(ToolSpecs(functions));
    }
  }

  /** Reads `d[key]` when `v` is a dictionary. */
  function Lookup(v: Value, key: string): Option<Value>
  {
    if v.Dict? then Get(v.fields, key) else None
  }

  /** `spec["toolSpec"]["name"]` */
  function ToolSpecName(spec: Value): Option<Value>
  {
    match Lookup(spec, "toolSpec")
    case Some(inner) => Lookup(inner, "name")
    case None => None
  }

  /** `spec["toolSpec"]["inputSchema"]["json"]["required"]` */
  function ToolSpecRequired(spec: Value): Option<Value>
  {
    match Lookup(spec, "toolSpec")
    case None => None
    case Some(inner) =>
      match Lookup(inner, "inputSchema")
      case None => None
      case Some(schema) =>
        match Lookup(schema, "json")
        case None => None
        case Some(json) => Lookup(json, "required")
  }

  /** A tool spec reads back as the function's required parameter names. */
  lemma ToolSpecRequiredReadBack(f: FunctionMetadata)
    ensures ToolSpecRequired(ToolSpec(f)) == Some(StrList(RequiredNames(f.parameters)))
  {
    var inner := ToolSpec(f).fields[0].value;
    assert "name" != "inputSchema" by { assert "name"[0] != "inputSchema"[0]; }
    assert "description" != "inputSchema" by { assert "description"[0] != "inputSchema"[0]; }
    GetThird(inner.fields[0], inner.fields[1], inner.fields[2]);
    var json := inner.fields[2].value.fields[0].value;
    assert "type" != "required" by { assert "type"[0] != "required"[0]; }
    assert "properties" != "required" by { assert "properties"[0] != "required"[0]; }
    GetThird(json.fields[0], json.fields[1], json.fields[2]);
  }

  /**
   * The `tools` list has one tool spec per available function, in order,
   * each named after its function and listing exactly that function's
   * required parameters, in parameter order.
   */
  lemma ToolSpecsShape(functions: seq<FunctionMetadata>)
    ensures |ToolSpecs(functions)| == |functions|
    ensures forall i :: 0 <= i < |functions| ==>
              ToolSpecName(ToolSpecs(functions)[i]) == Some(Str(functions[i].fullyQualifiedName))
    ensures forall i :: 0 <= i < |functions| ==>
              ToolSpecRequired(ToolSpecs(functions)[i]) == Some(StrList(RequiredNames(functions[i].parameters)))
  {
    forall i | 0 <= i < |functions|
      ensures ToolSpecName(ToolSpecs(functions)[i]) == Some(Str(functions[i].fullyQualifiedName))
      ensures ToolSpecRequired(ToolSpecs(functions)[i]) == Some(StrList(RequiredNames(functions[i].parameters)))
    {
      ToolSpecRequiredReadBack(functions[i]);
    }
  }

  /** The three tool-choice modes of the Converse API. */
  datatype BedrockToolChoice =
    | AutoChoice                  // the model decides whether to call a tool
    | AnyChoice                   // the model must call some tool
    | SpecificTool(name: string)  // the model must call this tool

  /** Reads a `toolChoice` dictionary back as a mode. */
  function DecodeToolChoice(v: Value): Option<BedrockToolChoice>
  {
    if v == Single("auto", Dict([])) then Some(AutoChoice)
    else if v == Single("any", Dict([])) then Some(AnyChoice)
    else match Lookup(v, "tool")
      case Some(tool) =>
        (match Lookup(tool, "name")
         case Some(Str(name)) => Some(SpecificTool(name))
         case _ => None)
      case None => None
  }

  /** Whether a mode obliges the model to call a tool. */
  predicate ForcesToolCall(mode: BedrockToolChoice)
  {
    !mode.AutoChoice?
  }

  /** The tools, out of those offered, a mode lets the model call. */
  function CallableTools(mode: BedrockToolChoice, offered: set<string>): set<string>
  {
    match mode
    case SpecificTool(name) => if name in offered then {name} else {}
    case _ => offered
  }

  function FunctionNames(functions: seq<FunctionMetadata>): set<string>
  {
    set f | f in functions :: f.fullyQualifiedName
  }
}
