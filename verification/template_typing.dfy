/** Schemas of node outputs: when a value matches one, what a pure path into an output is typed as, and why
    that type is right. Dicts keep their order and have distinct keys. */
module TemplateTyping {
  import opened ChannelGraph

  datatype Value =
    | Null
    | Bool(b: bool)
    | Int(i: int)
    | Float(r: real)
    | Decimal(r: real)
    | Str(text: string)
    | Moment(text: string)
    | List(items: seq<Value>)
    | Dict(fields: seq<Field>)

  datatype Field = Field(key: string, value: Value)

  datatype TypeName =
    | NullType
    | StringType
    | BooleanType
    | IntegerType
    | NumberType
    | ArrayType
    | ObjectType
    | OtherType(name: string)

  /** `items` and a property's schema are absent when the source holds no mapping there. */
  datatype Schema = Schema(types: set<TypeName>, enum: Option<seq<Value>>, items: Option<Schema>,
                           properties: Properties, required: seq<string>, additional: Additional)

  datatype Property = Property(name: string, schema: Option<Schema>)

  datatype Properties = NoProperties | Properties(list: seq<Property>)

  datatype Additional = Unsaid | Forbidden | Typed(schema: Schema)

  predicate HasKey(fields: seq<Field>, key: string) {
    exists i :: 0 <= i < |fields| && fields[i].key == key
  }

  predicate DistinctKeys(fields: seq<Field>) {
    forall i, j :: 0 <= i < j < |fields| ==> fields[i].key != fields[j].key
  }

  function Lookup(fields: seq<Field>, key: string): (found: Option<Value>)
    ensures found.Some? <==> HasKey(fields, key)
    ensures found.Some? ==> exists i :: 0 <= i < |fields| && fields[i] == Field(key, found.value)
  {
    if fields == [] then None
    else if fields[0].key == key then Some(fields[0].value)
    else
      var rest := Lookup(fields[1..], key);
      assert rest.None? ==> forall i :: 0 <= i < |fields| ==> i == 0 || fields[i] == fields[1..][i - 1];
      rest
  }

  // ---------- Python's equality, as `in` uses it ----------

  function Amount(v: Value): Option<real> {
    match v
    case Bool(b) => Some(if b then 1.0 else 0.0)
    case Int(i) => Some(i as real)
    case Float(r) => Some(r)
    case Decimal(r) => Some(r)
    case _ => None
  }

  predicate SameValue(a: Value, b: Value)
    decreases a, 0
  {
    if a.List? && b.List? then
      |a.items| == |b.items| && forall i :: 0 <= i < |a.items| ==> SameValue(a.items[i], b.items[i])
    else if a.Dict? && b.Dict? then
      && (forall i :: 0 <= i < |b.fields| ==> HasKey(a.fields, b.fields[i].key))
      && forall i :: 0 <= i < |a.fields| ==> SameField(a.fields[i].value, Lookup(b.fields, a.fields[i].key))
    else if Amount(a).Some? then Amount(a) == Amount(b)
    else a == b
  }

  predicate SameField(a: Value, b: Option<Value>)
    decreases a, 1
  {
    b.Some? && SameValue(a, b.value)
  }

  // ---------- matching ----------

  predicate Matches(v: Value, s: Schema, widen: bool)
    decreases s, 1
  {
    if s.enum.Some? && !(exists i :: 0 <= i < |s.enum.value| && SameValue(v, s.enum.value[i])) then false
    else if s.types == {} then s.enum.None?
    else exists name :: name in s.types && MatchesType(v, name, s, widen)
  }

  predicate MatchesType(v: Value, name: TypeName, s: Schema, widen: bool)
    decreases s, 0
  {
    match name
    case NullType => v.Null?
    case StringType => v.Str? || (widen && v.Moment?)
    case BooleanType => v.Bool?
    case IntegerType => v.Int?
    case NumberType => v.Int? || v.Float? || (widen && v.Decimal?)
    case ArrayType => v.List? && (s.items.Some? ==> forall i :: 0 <= i < |v.items| ==>
        Matches(v.items[i], s.items.value, widen))
    case ObjectType =>
      && v.Dict?
      && (forall i :: 0 <= i < |s.required| ==> HasKey(v.fields, s.required[i]))
      && (s.properties.Properties? ==> forall i :: 0 <= i < |s.properties.list| ==>
          PropertyMatches(v, s.properties.list[i], widen))
      && (s.additional.Forbidden? && s.properties.Properties? ==> forall i :: 0 <= i < |v.fields| ==>
          Declared(s.properties.list, v.fields[i].key))
    case OtherType(_) => false
  }

  predicate PropertyMatches(v: Value, p: Property, widen: bool)
    requires v.Dict?
    decreases p, 0
  {
    HasKey(v.fields, p.name) && p.schema.Some? ==> Matches(Lookup(v.fields, p.name).value, p.schema.value, widen)
  }

  predicate Declared(properties: seq<Property>, key: string) {
    exists i :: 0 <= i < |properties| && properties[i].name == key
  }

  /** No date, time or decimal anywhere inside. */
  predicate PlainJson(v: Value) {
    match v
    case Moment(_) => false
    case Decimal(_) => false
    case List(items) => forall i :: 0 <= i < |items| ==> PlainJson(items[i])
    case Dict(fields) => forall i :: 0 <= i < |fields| ==> PlainJson(fields[i].value)
    case _ => true
  }

  /** A strict match is a widened match at every depth, and on plain JSON the two are the same. */
  lemma {:induction false} WideningOnlyAdds(v: Value, s: Schema)
    ensures Matches(v, s, false) ==> Matches(v, s, true)
    ensures PlainJson(v) ==> (Matches(v, s, false) <==> Matches(v, s, true))
    decreases s
  {
    if v.List? && s.items.Some? {
      forall i | 0 <= i < |v.items|
        ensures Matches(v.items[i], s.items.value, false) ==> Matches(v.items[i], s.items.value, true)
        ensures PlainJson(v.items[i]) ==>
          (Matches(v.items[i], s.items.value, false) <==> Matches(v.items[i], s.items.value, true))
      {
        WideningOnlyAdds(v.items[i], s.items.value);
      }
    }
    if v.Dict? && s.properties.Properties? {
      forall i | 0 <= i < |s.properties.list|
        ensures PropertyMatches(v, s.properties.list[i], false) ==> PropertyMatches(v, s.properties.list[i], true)
        ensures PlainJson(v) ==>
          (PropertyMatches(v, s.properties.list[i], false) <==> PropertyMatches(v, s.properties.list[i], true))
      {
        var p := s.properties.list[i];
        if p.schema.Some? && HasKey(v.fields, p.name) {
          WideningOnlyAdds(Lookup(v.fields, p.name).value, p.schema.value);
        }
      }
    }
    forall name | name in s.types
      ensures MatchesType(v, name, s, false) ==> MatchesType(v, name, s, true)
      ensures PlainJson(v) ==> (MatchesType(v, name, s, false) <==> MatchesType(v, name, s, true))
    {
    }
  }

  // ---------- paths ----------

  datatype Step = Attr(name: string) | KeyStep(name: string) | IndexStep(index: int)

  /** The element schema when the schema names an array. */
  function ArrayItemSchema(s: Schema): Option<Schema> {
    if ArrayType in s.types then s.items else None
  }

  function PropertyIn(list: seq<Property>, name: string): Option<Schema> {
    if list == [] then None
    else if list[0].name == name then list[0].schema
    else PropertyIn(list[1..], name)
  }

  function PropertySchema(s: Schema, name: string): Option<Schema> {
    var found := if s.properties.Properties? then PropertyIn(s.properties.list, name) else None;
    if found.Some? then found
    else if s.additional.Typed? then Some(s.additional.schema)
    else None
  }

  function WalkSchema(s: Schema, step: Step): Option<Schema> {
    match step
    case Attr(name) => PropertySchema(s, name)
    case KeyStep(name) => PropertySchema(s, name)
    case IndexStep(_) => ArrayItemSchema(s)
  }

  function WalkPath(s: Schema, steps: seq<Step>): Option<Schema>
    decreases |steps|
  {
    if steps == [] then Some(s)
    else
      var next := WalkSchema(s, steps[0]);
      if next.None? then None else WalkPath(next.value, steps[1..])
  }

  /** What a path yields on a value: dict entries by name, list elements by index, from the end when negative. */
  function Evaluate(v: Value, steps: seq<Step>): Option<Value>
    decreases |steps|
  {
    if steps == [] then Some(v)
    else
      var next := EvaluateStep(v, steps[0]);
      if next.None? then None else Evaluate(next.value, steps[1..])
  }

  function EvaluateStep(v: Value, step: Step): Option<Value> {
    match step
    case IndexStep(index) =>
      if !v.List? then None
      else
        var i := if index < 0 then |v.items| + index else index;
        if 0 <= i < |v.items| then Some(v.items[i]) else None
    case _ => if v.Dict? then Lookup(v.fields, step.name) else None
  }

  /** The step is typed by `properties` or `items` of a schema that names a type. */
  predicate TypedStep(s: Schema, step: Step) {
    && s.types != {}
    && (!step.IndexStep? ==> s.properties.Properties? && PropertyIn(s.properties.list, step.name).Some?)
  }

  predicate TypedPath(s: Schema, steps: seq<Step>)
    decreases |steps|
  {
    steps != [] ==>
      TypedStep(s, steps[0]) && (WalkSchema(s, steps[0]).Some? ==> TypedPath(WalkSchema(s, steps[0]).value, steps[1..]))
  }

  lemma {:induction false} PropertyFound(list: seq<Property>, name: string)
    requires PropertyIn(list, name).Some?
    ensures exists i :: 0 <= i < |list| && list[i] == Property(name, PropertyIn(list, name))
  {
    if list[0].name == name {
      assert list[0] == Property(name, PropertyIn(list, name));
    } else {
      PropertyFound(list[1..], name);
      var i :| 0 <= i < |list[1..]| && list[1..][i] == Property(name, PropertyIn(list[1..], name));
      assert list[i + 1] == list[1..][i];
    }
  }

  lemma StepIsSound(v: Value, s: Schema, step: Step, widen: bool)
    requires Matches(v, s, widen) && TypedStep(s, step)
    requires WalkSchema(s, step).Some? && EvaluateStep(v, step).Some?
    ensures Matches(EvaluateStep(v, step).value, WalkSchema(s, step).value, widen)
  {
    var name :| name in s.types && MatchesType(v, name, s, widen);
    if !step.IndexStep? {
      PropertyFound(s.properties.list, step.name);
      var i :| 0 <= i < |s.properties.list|
          && s.properties.list[i] == Property(step.name, PropertyIn(s.properties.list, step.name));
      assert PropertyMatches(v, s.properties.list[i], widen);
    }
  }

  /** Typing a path is sound: on a matching value, whatever the path yields matches the schema found for it. */
  lemma {:induction false} PathIsSound(v: Value, s: Schema, steps: seq<Step>, widen: bool)
    requires Matches(v, s, widen) && TypedPath(s, steps)
    requires WalkPath(s, steps).Some? && Evaluate(v, steps).Some?
    ensures Matches(Evaluate(v, steps).value, WalkPath(s, steps).value, widen)
    decreases |steps|
  {
    if steps != [] {
      StepIsSound(v, s, steps[0], widen);
      PathIsSound(EvaluateStep(v, steps[0]).value, WalkSchema(s, steps[0]).value, steps[1..], widen);
    }
  }

  const ANYTHING := Schema({}, None, None, NoProperties, [], Unsaid)
  const TEXT := Schema({StringType}, None, None, NoProperties, [], Unsaid)

  /** A property typed only by `additionalProperties` is not checked when the value is matched. */
  lemma AdditionalTypeIsNotChecked(widen: bool)
    ensures var s := ANYTHING.(types := {ObjectType}, additional := Typed(TEXT));
      var v := Dict([Field("a", Int(1))]);
      Matches(v, s, widen) && WalkPath(s, [Attr("a")]) == Some(TEXT) && Evaluate(v, [Attr("a")]) == Some(Int(1))
          && !Matches(Int(1), TEXT, widen)
  {
    var s := ANYTHING.(types := {ObjectType}, additional := Typed(TEXT));
    var v := Dict([Field("a", Int(1))]);
    assert MatchesType(v, ObjectType, s, widen);
    OneStep(s, v, Attr("a"));
  }

  /** Nor are the properties of a schema that names no type. */
  lemma UntypedSchemaIsNotChecked(widen: bool)
    ensures var s := ANYTHING.(properties := Properties([Property("a", Some(TEXT))]));
      var v := Dict([Field("a", Int(1))]);
      Matches(v, s, widen) && WalkPath(s, [Attr("a")]) == Some(TEXT) && Evaluate(v, [Attr("a")]) == Some(Int(1))
          && !Matches(Int(1), TEXT, widen)
  {
    OneStep(ANYTHING.(properties := Properties([Property("a", Some(TEXT))])), Dict([Field("a", Int(1))]), Attr("a"));
  }

  lemma OneStep(s: Schema, v: Value, step: Step)
    ensures WalkPath(s, [step]) == WalkSchema(s, step) && Evaluate(v, [step]) == EvaluateStep(v, step)
  {
    assert [step][1..] == [];
  }

  // ---------- from a whole expression ----------

  const RESERVED := {"channel", "run", "platform", "nodes"}

  /** `self.<ref>` or `self.nodes["name"]`, then `.output`: the ref and the steps into its output. */
  function OutputPath(steps: seq<Step>, names: map<string, string>): Option<(string, seq<Step>)> {
    if steps == [] || !steps[0].Attr? then None
    else if steps[0].name == "nodes" then
      if |steps| < 3 || !steps[1].KeyStep? || steps[1].name !in names || steps[2] != Attr("output") then None
      else Some((names[steps[1].name], steps[3..]))
    else if steps[0].name in RESERVED then None
    else if |steps| < 2 || steps[1] != Attr("output") then None
    else Some((steps[0].name, steps[2..]))
  }

  /** The first of the ports, in the order the step asks for, that has a schema. */
  function FirstPort(produced: map<string, Schema>, ports: seq<string>): Option<Schema> {
    if ports == [] then None
    else if ports[0] in produced then Some(produced[ports[0]])
    else FirstPort(produced, ports[1..])
  }

  function OutputSchema(produced: map<string, Schema>, inside: bool): Option<Schema> {
    FirstPort(produced, if inside then ["each", "main", "done", "true"] else ["main", "done", "each", "true"])
  }

  function SchemaFromSteps(steps: seq<Step>, upstream: map<string, map<string, Schema>>, names: map<string, string>,
                           inside: set<string>): Option<Schema>
  {
    var path := OutputPath(steps, names);
    if path.None? || path.value.0 !in upstream then None
    else
      var schema := OutputSchema(upstream[path.value.0], path.value.0 in inside);
      if schema.None? then None else WalkPath(schema.value, path.value.1)
  }

  predicate OutputFits(v: Value, s: Option<Schema>) {
    s.Some? ==> Matches(v, s.value, true)
  }

  /** When every ancestor's output matches the schema its port declares, the schema found for an expression
      fits what the expression yields. */
  lemma ExpressionIsSound(steps: seq<Step>, upstream: map<string, map<string, Schema>>, names: map<string, string>,
                          inside: set<string>, outputs: map<string, Value>)
    requires forall r ::
      r in outputs && r in upstream ==> OutputFits(outputs[r], OutputSchema(upstream[r], r in inside))
    requires SchemaFromSteps(steps, upstream, names, inside).Some?
    requires var path := OutputPath(steps, names).value;
      && path.0 in outputs && Evaluate(outputs[path.0], path.1).Some?
      && TypedPath(OutputSchema(upstream[path.0], path.0 in inside).value, path.1)
    ensures var path := OutputPath(steps, names).value;
      Matches(Evaluate(outputs[path.0], path.1).value, SchemaFromSteps(steps, upstream, names, inside).value, true)
  {
    var path := OutputPath(steps, names).value;
    PathIsSound(outputs[path.0], OutputSchema(upstream[path.0], path.0 in inside).value, path.1, true);
  }

  // ---------- rendering ----------

  datatype Rendered = Ok(value: Value) | TypeError

  predicate IsString(s: Schema) {
    s.types - {NullType} == {StringType}
  }

  /** An expression's value against the declared type; `toText` is the value as concatenated text, where it has one. */
  function CoerceNative(v: Value, s: Schema, jsonTemplate: bool, toText: Value -> Option<string>): Rendered {
    if IsString(s) && !jsonTemplate then
      if v.Null? then (if NullType in s.types then Ok(Null) else TypeError)
      else if v.Str? then Ok(v)
      else if toText(v).Some? then Ok(Str(toText(v).value)) else TypeError
    else if Matches(v, s, false) then Ok(v) else TypeError
  }

  /** Concatenated text against the declared type; `load` is the JSON it holds, if any. */
  function CoerceText(text: string, s: Schema, jsonTemplate: bool, load: string -> Option<Value>): Rendered {
    if IsString(s) && !jsonTemplate then Ok(Str(text))
    else if load(text).Some? && Matches(load(text).value, s, false) then Ok(load(text).value) else TypeError
  }

  /** Whatever is rendered matches the declared type, except that an enum on a plain string is not looked at:
      the value then matches the same schema without the enum. */
  lemma RenderedMatches(v: Value, text: string, s: Schema, jsonTemplate: bool, toText: Value -> Option<string>,
                        load: string -> Option<Value>)
    ensures var r := CoerceNative(v, s, jsonTemplate, toText);
      r.Ok? ==> Matches(r.value, if IsString(s) && !jsonTemplate then s.(enum := None) else s, false)
    ensures var r := CoerceText(text, s, jsonTemplate, load);
      r.Ok? ==> Matches(r.value, if IsString(s) && !jsonTemplate then s.(enum := None) else s, false)
  {
    if IsString(s) && !jsonTemplate {
      var open := s.(enum := None);
      assert StringType in s.types - {NullType};
      forall t ensures Matches(Str(t), open, false) {
        assert MatchesType(Str(t), StringType, open, false);
      }
      if NullType in s.types {
        assert MatchesType(Null, NullType, open, false);
      }
    }
  }
}
