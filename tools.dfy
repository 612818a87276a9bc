/**
 * The tool registry of `llm_inference/llm/tools.py`: the `tool` decorator that derives a
 * JSON-schema-like description from a function's signature and registers the function,
 * and the result formatting of the `web_search` tool.
 *
 * Python reflection (`inspect.signature`, `get_type_hints`, `get_origin`) is replaced by an
 * explicit descriptor per parameter: its name, its type hint (if any) and whether it has a
 * default value.
 */
module Tools {
  import opened Wrappers

  // ---------------------------------------------------------------------------
  // Function descriptors
  // ---------------------------------------------------------------------------

  /** The class a type hint names: the six classes of the schema type table, or any other one. */
  datatype PyType = StrType | IntType | FloatType | BoolType | ListType | DictType | OtherType

  /** The first metadata item of an `Annotated[T, m, ...]` hint: a string, or anything else. */
  datatype Metadata = Text(text: string) | NonText

  /** A type hint: a bare class `T`, or `Annotated[T, m, ...]`. */
  datatype Hint = Plain(base: PyType) | Annotated(base: PyType, metadata: Metadata)

  /** One parameter of a signature; `hint` is `None` when the parameter carries no annotation. */
  datatype Param = Param(name: string, hint: Option<Hint>, hasDefault: bool)

  /** A function as the decorator sees it: its `__name__`, its `__doc__` and its parameters in order. */
  datatype ToolFunction = ToolFunction(name: string, doc: Option<string>, params: seq<Param>)

  // ---------------------------------------------------------------------------
  // Tool schemas
  // ---------------------------------------------------------------------------

  /** The schema of one parameter: `{"type": schemaType}` plus `"description"` when present. */
  datatype Property = Property(schemaType: string, description: Option<string>)

  /** An insertion-ordered dictionary from parameter name to property schema. */
  type Properties = seq<(string, Property)>

  /** `{"type": kind, "properties": ..., "required": [...]}` */
  datatype ParametersSchema = ParametersSchema(kind: string, properties: Properties, required: seq<string>)

  /** `{"name": ..., "description": ..., "parameters": ...}` */
  datatype FunctionSchema = FunctionSchema(name: string, description: string, parameters: ParametersSchema)

  /** `{"type": kind, "function": ...}`, one element of the `TOOLS` list. */
  datatype ToolSchema = ToolSchema(kind: string, functionSchema: FunctionSchema)

  // ---------------------------------------------------------------------------
  // Type mapping
  // ---------------------------------------------------------------------------

  /** `TYPE_MAP`: Python class to JSON schema type name. */
  const TypeMap: map<PyType, string> :=
    map[StrType := "string", IntType := "integer", FloatType := "number",
        BoolType := "boolean", ListType := "array", DictType := "object"]

  /** `TYPE_MAP.get(t, "string")` */
  function SchemaTypeOf(t: PyType): (r: string)
    ensures r in {"string", "integer", "number", "boolean", "array", "object"}
    ensures r == "string" <==> t == StrType || t == OtherType
  {
    CoveredByTable(t);
    if t in TypeMap then TypeMap[t] else "string"
  }

  /** Exactly the classes other than `OtherType` have a row in the table. */
  lemma CoveredByTable(t: PyType)
    ensures t in TypeMap <==> t != OtherType
  {
    match t
    case OtherType =>
    case _ =>
  }

  /** The table row by row, with the fallback for every class the table does not list. */
  lemma TypeMapTable()
    ensures SchemaTypeOf(StrType) == "string"
    ensures SchemaTypeOf(IntType) == "integer"
    ensures SchemaTypeOf(FloatType) == "number"
    ensures SchemaTypeOf(BoolType) == "boolean"
    ensures SchemaTypeOf(ListType) == "array"
    ensures SchemaTypeOf(DictType) == "object"
    ensures SchemaTypeOf(OtherType) == "string"
  {
  }

  /** Distinct table classes get distinct schema types; only the fallback shares "string". */
  lemma SchemaTypeDistinguishes(a: PyType, b: PyType)
    requires a != OtherType && b != OtherType
    ensures SchemaTypeOf(a) == SchemaTypeOf(b) <==> a == b
  {
  }

  /** The hint the decorator works with: a missing hint reads as `str` (`hints.get(name, str)`). */
  function HintOf(p: Param): Hint {
    p.hint.GetOr(Plain(StrType))
  }

  /**
   * The property schema of one parameter. The type comes from the hint's base class (the `T`
   * of `Annotated[T, ...]`); a description is present exactly when the hint is `Annotated` with a
   * non-empty string as its first metadata item.
   */
  function PropertyFor(p: Param): Property {
    var hint := HintOf(p);
    var description :=
      match hint
      case Annotated(_, Text(s)) => if s != "" then Some(s) else None
      case _ => None;
    Property(SchemaTypeOf(hint.base), description)
  }

  /**
   * The property of a parameter, case by case: no hint is `str`; a plain or `Annotated` hint
   * takes its type from the base type; only `Annotated` with a non-empty string adds a description.
   */
  lemma PropertyTable(name: string, t: PyType, hasDefault: bool, s: string)
    ensures PropertyFor(Param(name, None, hasDefault)) == Property("string", None)
    ensures PropertyFor(Param(name, Some(Plain(t)), hasDefault)) == Property(SchemaTypeOf(t), None)
    ensures PropertyFor(Param(name, Some(Annotated(t, NonText)), hasDefault)) == Property(SchemaTypeOf(t), None)
    ensures PropertyFor(Param(name, Some(Annotated(t, Text(""))), hasDefault)) == Property(SchemaTypeOf(t), None)
    ensures s != "" ==>
              PropertyFor(Param(name, Some(Annotated(t, Text(s))), hasDefault)) == Property(SchemaTypeOf(t), Some(s))
  {
  }

  // ---------------------------------------------------------------------------
  // The properties dictionary
  // ---------------------------------------------------------------------------

  function KeysOf(d: Properties): set<string> {
    if d == [] then {} else {d[0].0} + KeysOf(d[1..])
  }

  predicate UniqueKeys(d: Properties) {
    forall i, j :: 0 <= i < j < |d| ==> d[i].0 != d[j].0
  }

  /** `d.get(key)` */
  function Lookup(d: Properties, key: string): Option<Property> {
    if d == [] then None else if d[0].0 == key then Some(d[0].1) else Lookup(d[1..], key)
  }

  /** `d[key] = value` on an insertion-ordered dictionary: a new key goes last, an old key keeps its place. */
  function Put(d: Properties, key: string, value: Property): (r: Properties)
    ensures KeysOf(r) == KeysOf(d) + {key}
    ensures key !in KeysOf(d) ==> r == d + [(key, value)]
    ensures UniqueKeys(d) ==> UniqueKeys(r)
    ensures UniqueKeys(d) && key in KeysOf(d) ==>
              |r| == |d| && forall i :: 0 <= i < |d| ==> r[i] == (if d[i].0 == key then (key, value) else d[i])
  {
    if d == [] then [(key, value)]
    else if d[0].0 == key then [(key, value)] + d[1..]
    else
      var rest := Put(d[1..], key, value);
      KeyInTail(d, key);
      [d[0]] + rest
  }

  lemma KeyInTail(d: Properties, key: string)
    requires d != [] && d[0].0 != key
    ensures key in KeysOf(d) <==> key in KeysOf(d[1..])
  {
  }

  /** Reading a key back after `Put` gives the value put there; other keys are unaffected. */
  lemma {:induction false} LookupPut(d: Properties, key: string, value: Property, other: string)
    ensures Lookup(Put(d, key, value), other) == if other == key then Some(value) else Lookup(d, other)
  {
    if d != [] && d[0].0 != key {
      LookupPut(d[1..], key, value, other);
    }
  }

  // ---------------------------------------------------------------------------
  // Deriving the parameters schema
  // ---------------------------------------------------------------------------

  /** `self` and `cls` are skipped by the decorator. */
  predicate IsReceiver(name: string) {
    name == "self" || name == "cls"
  }

  /** The parameters the decorator describes, in signature order. */
  function Kept(params: seq<Param>): seq<Param> {
    if params == [] then []
    else
      var p := params[|params| - 1];
      Kept(params[..|params| - 1]) + (if IsReceiver(p.name) then [] else [p])
  }

  /** The `properties` dictionary after the decorator's loop has seen `params`. */
  function PropertiesOf(params: seq<Param>): Properties {
    if params == [] then []
    else
      var p := params[|params| - 1];
      var before := PropertiesOf(params[..|params| - 1]);
      if IsReceiver(p.name) then before else Put(before, p.name, PropertyFor(p))
  }

  /** The `required` list after the decorator's loop has seen `params`. */
  function RequiredOf(params: seq<Param>): seq<string> {
    if params == [] then []
    else
      var p := params[|params| - 1];
      var before := RequiredOf(params[..|params| - 1]);
      if IsReceiver(p.name) || p.hasDefault then before else before + [p.name]
  }

  /** The names of the parameters other than `self` and `cls`. */
  function DescribedNames(params: seq<Param>): set<string> {
    set i | 0 <= i < |params| && !IsReceiver(params[i].name) :: params[i].name
  }

  /** A Python signature never repeats a parameter name. */
  predicate DistinctNames(params: seq<Param>) {
    forall i, j :: 0 <= i < j < |params| ==> params[i].name != params[j].name
  }

  /** Each described parameter has exactly one entry in `properties`; `self` and `cls` have none. */
  lemma {:induction false} PropertiesKeys(params: seq<Param>)
    ensures KeysOf(PropertiesOf(params)) == DescribedNames(params)
    ensures UniqueKeys(PropertiesOf(params))
    ensures "self" !in KeysOf(PropertiesOf(params)) && "cls" !in KeysOf(PropertiesOf(params))
  {
    if params != [] {
      var init := params[..|params| - 1];
      PropertiesKeys(init);
      assert DescribedNames(params) ==
        DescribedNames(init) + (if IsReceiver(params[|params| - 1].name) then {} else {params[|params| - 1].name})
      by {
        forall n | n in DescribedNames(params)
          ensures n in DescribedNames(init) + (if IsReceiver(params[|params| - 1].name) then {} else {params[|params| - 1].name})
        {
          var i :| 0 <= i < |params| && !IsReceiver(params[i].name) && params[i].name == n;
          if i < |params| - 1 {
            assert init[i] == params[i];
          }
        }
        forall n | n in DescribedNames(init)
          ensures n in DescribedNames(params)
        {
          var i :| 0 <= i < |init| && !IsReceiver(init[i].name) && init[i].name == n;
          assert params[i] == init[i];
        }
      }
    }
  }

  /** Without repeated names, `properties` lists every described parameter once, in signature order. */
  lemma {:induction false} PropertiesInSignatureOrder(params: seq<Param>)
    requires DistinctNames(params)
    ensures |PropertiesOf(params)| == |Kept(params)|
    ensures forall i :: 0 <= i < |Kept(params)| ==>
              PropertiesOf(params)[i] == (Kept(params)[i].name, PropertyFor(Kept(params)[i]))
  {
    if params != [] {
      var init := params[..|params| - 1];
      var p := params[|params| - 1];
      assert DistinctNames(init) by {
        forall i, j | 0 <= i < j < |init| ensures init[i].name != init[j].name {
          assert init[i] == params[i] && init[j] == params[j];
        }
      }
      PropertiesInSignatureOrder(init);
      if !IsReceiver(p.name) {
        PropertiesKeys(init);
        assert p.name !in DescribedNames(init) by {
          forall i | 0 <= i < |init| ensures init[i].name != p.name {
            assert init[i] == params[i];
          }
        }
      }
    }
  }

  /** A described parameter is required exactly when it has no default, and every required name has a property. */
  lemma {:induction false} RequiredSpec(params: seq<Param>)
    ensures forall i :: 0 <= i < |RequiredOf(params)| ==> RequiredOf(params)[i] in KeysOf(PropertiesOf(params))
    ensures forall i :: 0 <= i < |params| && !IsReceiver(params[i].name) && !params[i].hasDefault ==>
              params[i].name in RequiredOf(params)
    ensures DistinctNames(params) ==>
              forall i :: 0 <= i < |params| && params[i].name in RequiredOf(params) ==>
                !IsReceiver(params[i].name) && !params[i].hasDefault
  {
    PropertiesKeys(params);
    if params != [] {
      var init := params[..|params| - 1];
      var p := params[|params| - 1];
      RequiredSpec(init);
      PropertiesKeys(init);
      forall i | 0 <= i < |RequiredOf(params)|
        ensures RequiredOf(params)[i] in DescribedNames(params)
      {
        if i < |RequiredOf(init)| {
          var n := RequiredOf(init)[i];
          assert n in DescribedNames(init);
          var k :| 0 <= k < |init| && !IsReceiver(init[k].name) && init[k].name == n;
          assert params[k] == init[k];
        } else {
          assert RequiredOf(params)[i] == p.name;
        }
      }
      forall i | 0 <= i < |params| && !IsReceiver(params[i].name) && !params[i].hasDefault
        ensures params[i].name in RequiredOf(params)
      {
        if i < |params| - 1 {
          assert init[i] == params[i];
        }
      }
      if DistinctNames(params) {
        assert DistinctNames(init) by {
          forall i, j | 0 <= i < j < |init| ensures init[i].name != init[j].name {
            assert init[i] == params[i] && init[j] == params[j];
          }
        }
        forall i | 0 <= i < |params| && params[i].name in RequiredOf(params)
          ensures !IsReceiver(params[i].name) && !params[i].hasDefault
        {
          if i < |params| - 1 {
            assert init[i] == params[i];
            assert params[i].name != p.name;
            assert params[i].name in RequiredOf(init);
          }
        }
      }
    }
  }

  /** A parameter that goes into `required`: described and without a default. */
  predicate IsRequired(p: Param) {
    !IsReceiver(p.name) && !p.hasDefault
  }

  /** The positions in the signature of the parameters `required` lists. */
  function RequiredPositions(params: seq<Param>): seq<nat> {
    if params == [] then []
    else
      var before := RequiredPositions(params[..|params| - 1]);
      if IsRequired(params[|params| - 1]) then before + [|params| - 1] else before
  }

  /**
   * `required` is exactly the parameters without a default, in signature order: its k-th name is
   * that of the parameter at the k-th of a strictly increasing list of positions, and those
   * positions are exactly the described parameters without a default.
   */
  lemma {:induction false} RequiredInSignatureOrder(params: seq<Param>)
    ensures var idx := RequiredPositions(params);
            && |idx| == |RequiredOf(params)|
            && (forall k :: 0 <= k < |idx| ==>
                  idx[k] < |params| && IsRequired(params[idx[k]]) && RequiredOf(params)[k] == params[idx[k]].name)
            && (forall j, k :: 0 <= j < k < |idx| ==> idx[j] < idx[k])
            && (forall i :: 0 <= i < |params| && IsRequired(params[i]) ==> i in idx)
  {
    if params != [] {
      var init := params[..|params| - 1];
      RequiredInSignatureOrder(init);
      var idx := RequiredPositions(params);
      forall k | 0 <= k < |RequiredPositions(init)|
        ensures params[RequiredPositions(init)[k]] == init[RequiredPositions(init)[k]]
      {
      }
      forall i | 0 <= i < |params| && IsRequired(params[i]) ensures i in idx {
        if i < |params| - 1 {
          assert init[i] == params[i];
          assert i in RequiredPositions(init);
        }
      }
    }
  }

  /** The decorator's loop over the signature, building `properties` and `required` step by step. */
  method BuildParameters(params: seq<Param>) returns (properties: Properties, required: seq<string>)
    ensures properties == PropertiesOf(params)
    ensures required == RequiredOf(params)
  {
    properties, required := [], [];
    for i := 0 to |params|
      invariant properties == PropertiesOf(params[..i])
      invariant required == RequiredOf(params[..i])
    {
      var param := params[i];
      assert params[..i + 1][..i] == params[..i];
      if param.name == "self" || param.name == "cls" {
        continue;
      }
      var prop := PropertyFor(param);
      properties := Put(properties, param.name, prop);
      if !param.hasDefault {
        required := required + [param.name];
      }
    }
    assert params[..|params|] == params;
  }

  // ---------------------------------------------------------------------------
  // The description: first line of the stripped docstring
  // ---------------------------------------------------------------------------

  /** The characters Python's `str.isspace` accepts. */
  predicate IsSpace(c: char) {
    || c == ' '
    || ('\t' <= c <= '\r')
    || ('\U{1C}' <= c <= '\U{1F}')
    || c == '\U{85}' || c == '\U{A0}' || c == '\U{1680}'
    || ('\U{2000}' <= c <= '\U{200A}')
    || c == '\U{2028}' || c == '\U{2029}' || c == '\U{202F}' || c == '\U{205F}' || c == '\U{3000}'
  }

  /** How many whitespace characters `s` starts with (what `s.lstrip()` removes). */
  function LeadingSpaces(s: string): (n: nat)
    ensures n <= |s|
    ensures forall i :: 0 <= i < n ==> IsSpace(s[i])
    ensures n < |s| ==> !IsSpace(s[n])
  {
    if s != [] && IsSpace(s[0]) then
      var k := LeadingSpaces(s[1..]);
      assert forall i :: 1 <= i < k + 1 ==> s[i] == s[1..][i - 1];
      k + 1
    else 0
  }
  /** How many whitespace characters `s` ends with (what `s.rstrip()` removes). */
  function TrailingSpaces(s: string): (n: nat)
    ensures n <= |s|
    ensures forall i :: |s| - n <= i < |s| ==> IsSpace(s[i])
    ensures n < |s| ==> !IsSpace(s[|s| - n - 1])
  {
    if s != [] && IsSpace(s[|s| - 1]) then TrailingSpaces(s[..|s| - 1]) + 1 else 0
  }
  /**
   * `s.strip()`: the slice of `s` that remains after removing whitespace at both ends; it is
   * empty exactly when `s` is all whitespace, and otherwise starts and ends with a non-space.
   */
  function Strip(s: string): (r: string)
    ensures var a := LeadingSpaces(s);
              && a + |r| <= |s| && r == s[a..a + |r|]
              && (forall i :: 0 <= i < a ==> IsSpace(s[i]))
              && (forall i :: a + |r| <= i < |s| ==> IsSpace(s[i]))
    ensures r == [] || (!IsSpace(r[0]) && !IsSpace(r[|r| - 1]))
    ensures r == [] <==> forall i :: 0 <= i < |s| ==> IsSpace(s[i])
  {
    var a := LeadingSpaces(s);
    var e := |s| - TrailingSpaces(s);
    if a < e then s[a..e] else []
  }
  /** Stripping twice is stripping once. */
  lemma StripIdempotent(s: string)
    ensures Strip(Strip(s)) == Strip(s)
  {
    var r := Strip(s);
    if r != [] {
      assert LeadingSpaces(r) == 0;
      assert TrailingSpaces(r) == 0;
    }
  }

  /** `s.split("\n")[0]`: the text before the first line feed, or all of `s` when there is none. */
  function FirstLine(s: string): (r: string)
    ensures r <= s && '\n' !in r
    ensures |r| < |s| ==> s[|r|] == '\n'
  {
    if s == [] || s[0] == '\n' then [] else [s[0]] + FirstLine(s[1..])
  }

  /** The first line of `a + "\n" + b`, for `a` without line feeds, is `a`. */
  lemma {:induction false} FirstLineOfJoined(a: string, b: string)
    requires '\n' !in a
    ensures FirstLine(a + "\n" + b) == a
  {
    if a != [] {
      assert (a + "\n" + b)[1..] == a[1..] + "\n" + b;
      FirstLineOfJoined(a[1..], b);
    }
  }

  /** `s.split("\n")`: always at least one piece, none holding a line feed. */
  function SplitLines(s: string): (r: seq<string>)
    ensures |r| >= 1 && r[0] == FirstLine(s)
    ensures forall i :: 0 <= i < |r| ==> '\n' !in r[i]
    decreases |s|
  {
    var line := FirstLine(s);
    if |line| == |s| then [s] else [line] + SplitLines(s[|line| + 1..])
  }

  /** `sep.join(parts)` */
  function Join(sep: string, parts: seq<string>): string {
    if parts == [] then "" else if |parts| == 1 then parts[0] else parts[0] + sep + Join(sep, parts[1..])
  }

  /** Splitting what was joined with line feeds gives back the lines, when none holds a line feed. */
  lemma {:induction false} SplitJoin(parts: seq<string>)
    requires parts != []
    requires forall i :: 0 <= i < |parts| ==> '\n' !in parts[i]
    ensures SplitLines(Join("\n", parts)) == parts
  {
    if |parts| == 1 {
      assert FirstLine(parts[0]) == parts[0] by { FirstLineOfJoined(parts[0], ""); }
    } else {
      var rest := Join("\n", parts[1..]);
      var s := parts[0] + "\n" + rest;
      FirstLineOfJoined(parts[0], rest);
      assert s[|parts[0]| + 1..] == rest;
      SplitJoin(parts[1..]);
    }
  }

  /** Joining the pieces of a split with line feeds gives back the string. */
  lemma {:induction false} JoinSplit(s: string)
    ensures Join("\n", SplitLines(s)) == s
    decreases |s|
  {
    var line := FirstLine(s);
    if |line| < |s| {
      var tail := s[|line| + 1..];
      var rest := SplitLines(tail);
      assert SplitLines(s) == [line] + rest;
      assert Join("\n", [line] + rest) == line + "\n" + Join("\n", rest) by {
        assert ([line] + rest)[1..] == rest;
      }
      JoinSplit(tail);
      assert s == line + "\n" + tail;
    } else {
      assert SplitLines(s) == [s];
    }
  }

  /** `(doc or "").strip().split("\n")[0]` */
  function Description(doc: Option<string>): string {
    SplitLines(Strip(doc.GetOr("")))[0]
  }

  /**
   * The description is the first line of the stripped docstring: a prefix of it without line
   * feeds that reaches either its end or its first line feed; it is empty exactly when there is
   * no docstring or the docstring is all whitespace.
   */
  lemma DescriptionSpec(doc: Option<string>)
    ensures var stripped := Strip(doc.GetOr(""));
              && Description(doc) <= stripped
              && '\n' !in Description(doc)
              && (|Description(doc)| < |stripped| ==> stripped[|Description(doc)|] == '\n')
    ensures Description(doc) == "" <==> doc.None? || forall i :: 0 <= i < |doc.value| ==> IsSpace(doc.value[i])
  {
    var stripped := Strip(doc.GetOr(""));
    if stripped != [] {
      assert stripped[0] != '\n';
      assert FirstLine(stripped) == [stripped[0]] + FirstLine(stripped[1..]);
    }
  }

  /** A docstring on one line with no surrounding whitespace is its own description. */
  lemma DescriptionOfOneLine(doc: string)
    requires doc != [] && !IsSpace(doc[0]) && !IsSpace(doc[|doc| - 1]) && '\n' !in doc
    ensures Description(Some(doc)) == doc
  {
    assert LeadingSpaces(doc) == 0;
    assert TrailingSpaces(doc) == 0;
    FirstLineOfJoined(doc, "");
  }

  // ---------------------------------------------------------------------------
  // The registry
  // ---------------------------------------------------------------------------

  /** The schema the decorator builds for `func`. */
  function SchemaOf(func: ToolFunction): ToolSchema {
    ToolSchema("function",
      FunctionSchema(func.name, Description(func.doc),
        ParametersSchema("object", PropertiesOf(func.params), RequiredOf(func.params))))
  }

  /** The last schema in `tools` registered under `name`. */
  function LastSchemaNamed(tools: seq<ToolSchema>, name: string): Option<ToolSchema> {
    if tools == [] then None
    else if tools[|tools| - 1].functionSchema.name == name then Some(tools[|tools| - 1])
    else LastSchemaNamed(tools[..|tools| - 1], name)
  }

  /** The module-level registry: the `TOOLS` list and the `TOOL_FUNCTIONS` dictionary. */
  class Registry {
    var tools: seq<ToolSchema>
    var functions: map<string, ToolFunction>

    /**
     * Every schema's name is a key of `functions`, and for every key the most recent schema
     * under that name is the one derived from the function the key maps to.
     */
    ghost predicate Valid()
      reads this
    {
      && (forall name :: name in functions ==> LastSchemaNamed(tools, name) == Some(SchemaOf(functions[name])))
      && (forall i :: 0 <= i < |tools| ==> tools[i].functionSchema.name in functions)
    }

    /** `TOOLS: list[dict] = []` and `TOOL_FUNCTIONS: dict[str, Callable] = {}` */
    constructor ()
      ensures Valid()
      ensures tools == [] && functions == map[]
    {
      tools := [];
      functions := map[];
    }

    /**
     * The `tool` decorator: appends one schema to `tools`, maps the function's name to the
     * function (overwriting an earlier entry without complaint) and returns the function unchanged.
     */
    method Tool(func: ToolFunction) returns (decorated: ToolFunction)
      requires Valid()
      modifies this
      ensures Valid()
      ensures decorated == func
      ensures tools == old(tools) + [SchemaOf(func)]
      ensures functions == old(functions)[func.name := func]
    {
      var description := Description(func.doc);
      var properties, required := BuildParameters(func.params);
      var schema := ToolSchema("function",
        FunctionSchema(func.name, description, ParametersSchema("object", properties, required)));
      assert schema == SchemaOf(func);
      ghost var before, beforeFunctions := tools, functions;
      tools := tools + [schema];
      functions := functions[func.name := func];
      assert tools[..|tools| - 1] == before;
      forall name | name in functions
        ensures LastSchemaNamed(tools, name) == Some(SchemaOf(functions[name]))
      {
        if name != func.name {
          assert LastSchemaNamed(tools, name) == LastSchemaNamed(before, name);
          assert functions[name] == beforeFunctions[name];
        }
      }
      forall i | 0 <= i < |tools| ensures tools[i].functionSchema.name in functions {
        if i < |before| {
          assert tools[i] == before[i];
        }
      }
      decorated := func;
    }
  }

  /** Registering two functions under one name keeps both schemas and dispatches to the second. */
  method RegisterSameNameTwice(registry: Registry, first: ToolFunction, second: ToolFunction)
    requires registry.Valid() && first.name == second.name
    modifies registry
    ensures registry.Valid()
    ensures registry.tools == old(registry.tools) + [SchemaOf(first), SchemaOf(second)]
    ensures registry.functions == old(registry.functions)[first.name := second]
  {
    ghost var functions0 := registry.functions;
    var _ := registry.Tool(first);
    var _ := registry.Tool(second);
    OverwriteTwice(functions0, first.name, first, second);
  }

  lemma OverwriteTwice<K, V>(m: map<K, V>, k: K, a: V, b: V)
    ensures m[k := a][k := b] == m[k := b]
  {
  }

  // ---------------------------------------------------------------------------
  // The web_search tool
  // ---------------------------------------------------------------------------

  /** `web_search(query: Annotated[str, ...], max_results: Annotated[int, ...] = 5)` */
  const WebSearch: ToolFunction :=
    ToolFunction("web_search", Some("Search the web for current information."),
      [ Param("query", Some(Annotated(StrType, Text("The search query"))), false),
        Param("max_results", Some(Annotated(IntType, Text("Maximum number of results"))), true) ])

  /** The description registered for `web_search` is its one-line docstring. */
  lemma WebSearchDescription()
    ensures Description(WebSearch.doc) == "Search the web for current information."
  {
    var doc := "Search the web for current information.";
    assert forall i :: 0 <= i < |doc| ==> doc[i] != '\n';
    DescriptionOfOneLine(doc);
  }

  /** The parameters of `web_search` as the decorator describes them. */
  lemma WebSearchProperties()
    ensures PropertiesOf(WebSearch.params) ==
              [ ("query", Property("string", Some("The search query"))),
                ("max_results", Property("integer", Some("Maximum number of results"))) ]
    ensures RequiredOf(WebSearch.params) == ["query"]
  {
    var params := WebSearch.params;
    var query := Property("string", Some("The search query"));
    var maxResults := Property("integer", Some("Maximum number of results"));
    TypeMapTable();
    assert PropertyFor(params[0]) == query;
    assert PropertyFor(params[1]) == maxResults;
    assert params[..1][..0] == [];
    assert params[..1] == [params[0]];
    assert PropertiesOf(params[..1]) == [("query", query)];
    assert RequiredOf(params[..1]) == ["query"];
    assert params[..2][..1] == params[..1];
    assert params[..2] == params;
    assert KeysOf([("query", query)]) == {"query"};
  }

  /** The schema registered for `web_search`: `query` a required string, `max_results` an optional integer. */
  lemma WebSearchSchema()
    ensures SchemaOf(WebSearch) ==
      ToolSchema("function",
        FunctionSchema("web_search", "Search the web for current information.",
          ParametersSchema("object",
            [ ("query", Property("string", Some("The search query"))),
              ("max_results", Property("integer", Some("Maximum number of results"))) ],
            ["query"])))
  {
    WebSearchDescription();
    WebSearchProperties();
  }

  /** Importing the module registers `web_search` into an empty registry. */
  method LoadToolsModule() returns (registry: Registry)
    ensures fresh(registry) && registry.Valid()
    ensures registry.tools == [SchemaOf(WebSearch)]
    ensures registry.functions == map["web_search" := WebSearch]
  {
    registry := new Registry();
    var _ := registry.Tool(WebSearch);
  }

  /** One search hit as DuckDuckGo returns it. */
  datatype SearchResult = SearchResult(title: string, body: string, href: string)

  /** `f"- {r['title']}: {r['body']} ({r['href']})"` */
  function ResultLine(r: SearchResult): string {
    "- " + r.title + ": " + r.body + " (" + r.href + ")"
  }

  /** One line per hit, in order. */
  function ResultLines(results: seq<SearchResult>): seq<string> {
    seq(|results|, i requires 0 <= i < |results| => ResultLine(results[i]))
  }

  function SearchHeader(query: string): string {
    "Search results for '" + query + "':"
  }

  /** The text `web_search` returns for `query` and the hits `results`. */
  function FormatSearchResults(query: string, results: seq<SearchResult>): string {
    SearchHeader(query) + "\n" + Join("\n", ResultLines(results))
  }

  predicate NoLineFeed(r: SearchResult) {
    '\n' !in r.title && '\n' !in r.body && '\n' !in r.href
  }

  /**
   * Read line by line, the output is the header followed by one line per hit in order (a single
   * empty line when there are no hits), provided no field holds a line feed.
   */
  lemma SearchOutputLines(query: string, results: seq<SearchResult>)
    requires '\n' !in query
    requires forall i :: 0 <= i < |results| ==> NoLineFeed(results[i])
    ensures var lines := SplitLines(FormatSearchResults(query, results));
            && lines[0] == "Search results for '" + query + "':"
            && (results == [] ==> lines == [lines[0], ""])
            && (results != [] ==>
                  && |lines| == |results| + 1
                  && forall i :: 0 <= i < |results| ==>
                       lines[i + 1] == "- " + results[i].title + ": " + results[i].body + " (" + results[i].href + ")")
  {
    var header := SearchHeader(query);
    var lines := ResultLines(results);
    if results == [] {
      assert FormatSearchResults(query, results) == Join("\n", [header, ""]);
      SplitJoin([header, ""]);
    } else {
      assert FormatSearchResults(query, results) == Join("\n", [header] + lines) by {
        assert ([header] + lines)[1..] == lines;
      }
      forall i | 0 <= i < |[header] + lines| ensures '\n' !in ([header] + lines)[i] {
        if i > 0 {
          assert ([header] + lines)[i] == ResultLine(results[i - 1]);
        }
      }
      SplitJoin([header] + lines);
    }
  }
}
