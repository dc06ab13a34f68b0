/**
 * The workspace `Apps` service: `formSchema`, which turns an application
 * description into the form schema the job submission form is drawn from,
 * and the option merge of `list`.
 */
module AppsService {
  import opened Wrappers

  /** The human-readable part of a parameter or input. */
  datatype Details = Details(labelText: string, description: string)

  /** A parameter's value description.  `enumValues` lists the enumeration's
      objects, each as its `(key, label)` entries in key order; a value
      description without a `type` has `valueType == ""`. */
  datatype ParamValue = ParamValue(valueType: string, enumValues: seq<seq<(string, string)>>)

  datatype Param = Param(id: string, details: Details, value: ParamValue)

  datatype Input = Input(id: string, details: Details)

  /** An application description; a missing list is `None`. */
  datatype App = App(parameters: Option<seq<Param>>, inputs: Option<seq<Input>>)

  /** One form field.  `enumKeys` is present only on enumeration fields; an
      entry is `None` where the enumeration object has no key (`undefined`). */
  datatype Field = Field(title: string, description: string, fieldType: string,
                         enumKeys: Option<seq<Option<string>>>)

  /** A nested object section of the schema. */
  datatype Section = Section(sectionType: string, title: string, properties: map<string, Field>)

  datatype Schema = Schema(schemaType: string, name: Field, parameters: Option<Section>,
                           inputs: Option<Section>)

  /** The job name field every schema starts with. */
  const NameField := Field("Job name", "A recognizable name for this job", "string", None)

  /** `app.parameters || []`. */
  function ParamsOf(app: App): seq<Param>
  {
    if app.parameters.Some? then app.parameters.value else []
  }

  /** `app.inputs || []`. */
  function InputsOf(app: App): seq<Input>
  {
    if app.inputs.Some? then app.inputs.value else []
  }

  /** The form type of a parameter value type: a closed mapping onto
      `boolean`, `number` and `string`, with `string` for every type it does
      not recognise. */
  function FieldTypeOf(valueType: string): (t: string)
    ensures t == "boolean" || t == "number" || t == "string"
    ensures t == "boolean" <==> valueType == "bool" || valueType == "flag"
    ensures t == "number" <==> valueType == "number"
  {
    if valueType == "bool" || valueType == "flag" then "boolean"
    else if valueType == "number" then "number"
    else "string"
  }

  /** `Object.keys(enumVal)[0]`. */
  function FirstKey(entries: seq<(string, string)>): Option<string>
  {
    if entries == [] then None else Some(entries[0].0)
  }

  /** The `enum` list of an enumeration field: the first key of every
      enumeration object, in order. */
  function EnumKeys(values: seq<seq<(string, string)>>): (keys: seq<Option<string>>)
    ensures |keys| == |values|
    ensures forall i :: 0 <= i < |values| ==> keys[i] == FirstKey(values[i])
  {
    if values == [] then [] else [FirstKey(values[0])] + EnumKeys(values[1..])
  }

  /** The field built for one parameter. */
  function ParamField(p: Param): Field
  {
    var base := Field(p.details.labelText, p.details.description, FieldTypeOf(p.value.valueType), None);
    if p.value.valueType == "enumeration" then base.(enumKeys := Some(EnumKeys(p.value.enumValues)))
    else base
  }

  /** The field built for one input: always a string. */
  function InputField(input: Input): Field
  {
    Field(input.details.labelText, input.details.description, "string", None)
  }

  /** The object a sequence of `properties[key] = field` assignments builds,
      starting from `{}`. */
  function Assign(entries: seq<(string, Field)>): map<string, Field>
  {
    if entries == [] then map[]
    else Assign(entries[..|entries| - 1])[entries[|entries| - 1].0 := entries[|entries| - 1].1]
  }

  function ParamEntries(params: seq<Param>): (e: seq<(string, Field)>)
    ensures |e| == |params|
    ensures forall i :: 0 <= i < |params| ==> e[i] == (params[i].id, ParamField(params[i]))
  {
    seq(|params|, i requires 0 <= i < |params| => (params[i].id, ParamField(params[i])))
  }

  function InputEntries(inputs: seq<Input>): (e: seq<(string, Field)>)
    ensures |e| == |inputs|
    ensures forall i :: 0 <= i < |inputs| ==> e[i] == (inputs[i].id, InputField(inputs[i]))
  {
    seq(|inputs|, i requires 0 <= i < |inputs| => (inputs[i].id, InputField(inputs[i])))
  }

  /** The `switch` on a parameter's value type. */
  method BuildParamField(param: Param) returns (field: Field)
    ensures field == ParamField(param)
    ensures field.title == param.details.labelText && field.description == param.details.description
    ensures field.fieldType == FieldTypeOf(param.value.valueType)
    ensures field.enumKeys.Some? <==> param.value.valueType == "enumeration"
    ensures field.enumKeys.Some? ==> field.enumKeys.value == EnumKeys(param.value.enumValues)
  {
    field := Field(param.details.labelText, param.details.description, "string", None);
    if param.value.valueType == "bool" || param.value.valueType == "flag" {
      field := field.(fieldType := "boolean");
    } else if param.value.valueType == "enumeration" {
      field := field.(fieldType := "string", enumKeys := Some(EnumKeys(param.value.enumValues)));
    } else if param.value.valueType == "number" {
      field := field.(fieldType := "number");
    }
  }

  /** The `_.each` over the parameters, filling `properties[param.id]`. */
  method ParameterProperties(params: seq<Param>) returns (props: map<string, Field>)
    ensures props == Assign(ParamEntries(params))
  {
    props := map[];
    ghost var entries := ParamEntries(params);
    for i := 0 to |params|
      invariant props == Assign(entries[..i])
    {
      var field := BuildParamField(params[i]);
      assert entries[..i + 1][..i] == entries[..i];
      props := props[params[i].id := field];
    }
    assert entries[..|params|] == entries;
  }

  /** The `_.each` over the inputs, filling `properties[input.id]`. */
  method InputProperties(inputs: seq<Input>) returns (props: map<string, Field>)
    ensures props == Assign(InputEntries(inputs))
  {
    props := map[];
    ghost var entries := InputEntries(inputs);
    for i := 0 to |inputs|
      invariant props == Assign(entries[..i])
    {
      var field := Field(inputs[i].details.labelText, inputs[i].details.description, "string", None);
      assert entries[..i + 1][..i] == entries[..i];
      props := props[inputs[i].id := field];
    }
    assert entries[..|inputs|] == entries;
  }

  /** `service.formSchema` on an application object. */
  method FormSchema(app: App) returns (schema: Schema)
    ensures schema.schemaType == "object" && schema.name == NameField
    ensures schema.parameters.Some? <==> |ParamsOf(app)| > 0
    ensures schema.parameters.Some? ==>
              schema.parameters.value == Section("object", "Parameters", Assign(ParamEntries(ParamsOf(app))))
    ensures schema.inputs.Some? <==> |InputsOf(app)| > 0
    ensures schema.inputs.Some? ==>
              schema.inputs.value == Section("object", "Inputs", Assign(InputEntries(InputsOf(app))))
  {
    var params := if app.parameters.Some? then app.parameters.value else [];
    var inputs := if app.inputs.Some? then app.inputs.value else [];
    schema := Schema("object", NameField, None, None);
    if |params| > 0 {
      var props := ParameterProperties(params);
      schema := schema.(parameters := Some(Section("object", "Parameters", props)));
    }
    if |inputs| > 0 {
      var props := InputProperties(inputs);
      schema := schema.(inputs := Some(Section("object", "Inputs", props)));
    }
  }

  /** The keys assigned are exactly the keys of the entries. */
  lemma {:induction false} AssignKeys(entries: seq<(string, Field)>)
    ensures Assign(entries).Keys == set i | 0 <= i < |entries| :: entries[i].0
    decreases |entries|
  {
    if entries != [] {
      var front := entries[..|entries| - 1];
      AssignKeys(front);
      assert forall i :: 0 <= i < |front| ==> front[i] == entries[i];
    }
  }

  /** A key holds the field of its last assignment: a later duplicate
      overwrites an earlier one. */
  lemma {:induction false} AssignLastWins(entries: seq<(string, Field)>, i: nat)
    requires i < |entries|
    requires forall j :: i < j < |entries| ==> entries[j].0 != entries[i].0
    ensures entries[i].0 in Assign(entries) && Assign(entries)[entries[i].0] == entries[i].1
    decreases |entries|
  {
    if i < |entries| - 1 {
      var front := entries[..|entries| - 1];
      assert front[i] == entries[i];
      AssignLastWins(front, i);
    }
  }

  /** The parameters section has one property per parameter id. */
  lemma ParameterKeys(params: seq<Param>)
    ensures Assign(ParamEntries(params)).Keys == set i | 0 <= i < |params| :: params[i].id
  {
    var e := ParamEntries(params);
    AssignKeys(e);
    assert (set i | 0 <= i < |e| :: e[i].0) == set i | 0 <= i < |params| :: params[i].id;
  }

  /** The property of an id is the field of the last parameter with that id. */
  lemma ParameterLastWins(params: seq<Param>, i: nat)
    requires i < |params|
    requires forall j :: i < j < |params| ==> params[j].id != params[i].id
    ensures params[i].id in Assign(ParamEntries(params))
    ensures Assign(ParamEntries(params))[params[i].id] == ParamField(params[i])
  {
    AssignLastWins(ParamEntries(params), i);
  }

  /** The inputs section has one property per input id, and every property is
      the string field carrying the label and description of the last input
      with that id. */
  lemma InputFields(inputs: seq<Input>)
    ensures Assign(InputEntries(inputs)).Keys == set i | 0 <= i < |inputs| :: inputs[i].id
    ensures forall k :: k in Assign(InputEntries(inputs)) ==>
              exists i :: 0 <= i < |inputs| && inputs[i].id == k
                && (forall j :: i < j < |inputs| ==> inputs[j].id != k)
                && Assign(InputEntries(inputs))[k]
                   == Field(inputs[i].details.labelText, inputs[i].details.description, "string", None)
  {
    var e := InputEntries(inputs);
    AssignKeys(e);
    assert (set i | 0 <= i < |e| :: e[i].0) == set i | 0 <= i < |inputs| :: inputs[i].id;
    forall k | k in Assign(e)
      ensures exists i :: 0 <= i < |inputs| && inputs[i].id == k
                && (forall j :: i < j < |inputs| ==> inputs[j].id != k)
                && Assign(e)[k] == Field(inputs[i].details.labelText, inputs[i].details.description, "string", None)
    {
      var i :| 0 <= i < |e| && e[i].0 == k;
      var last := LastWith(e, k, i);
      AssignLastWins(e, last);
      assert forall j :: last < j < |inputs| ==> inputs[j].id != k by {
        forall j | last < j < |inputs| ensures inputs[j].id != k {
          assert e[j].0 == inputs[j].id;
        }
      }
    }
  }

  /** The last position, at or after `i`, whose key is `k`. */
  function LastWith(entries: seq<(string, Field)>, k: string, i: nat): (last: nat)
    requires i < |entries| && entries[i].0 == k
    ensures i <= last < |entries| && entries[last].0 == k
    ensures forall j :: last < j < |entries| ==> entries[j].0 != k
    decreases |entries| - i
  {
    if exists j :: i < j < |entries| && entries[j].0 == k then
      var j :| i < j < |entries| && entries[j].0 == k;
      LastWith(entries, k, j)
    else i
  }

  // ----- list -----

  /** The values `list` options take. */
  datatype OptionValue = BoolValue(b: bool) | StringValue(s: string) | NumberValue(n: int)

  /** `_.extend(dest, src)`: every key of `src` with `src`'s value, every other
      key of `dest` with `dest`'s value. */
  function Extend(dest: map<string, OptionValue>, src: map<string, OptionValue>): (r: map<string, OptionValue>)
    ensures r.Keys == dest.Keys + src.Keys
    ensures forall k :: k in src ==> r[k] == src[k]
    ensures forall k :: k in dest && k !in src ==> r[k] == dest[k]
  {
    dest + src
  }

  /** The service object; `defaultListOpts` is shared by every `list` call.
      `history` records the options each call passed, so that the shared
      defaults are always those `DefaultsAfter` computes from them. */
  class Apps {
    var defaultListOpts: map<string, OptionValue>
    ghost var history: seq<map<string, OptionValue>>

    ghost predicate Valid()
      reads this
    {
      defaultListOpts == DefaultsAfter(history)
    }

    constructor ()
      ensures defaultListOpts == map["publicOnly" := BoolValue(false)]
      ensures history == [] && Valid()
    {
      defaultListOpts := map["publicOnly" := BoolValue(false)];
      history := [];
    }

    /** `service.list(opts)`: the options are merged into the shared defaults
        themselves, and the merged defaults are the request's query parameters.
        Absent options count as `{}`. */
    method List(opts: Option<map<string, OptionValue>>) returns (params: map<string, OptionValue>)
      requires Valid()
      modifies this
      ensures defaultListOpts == Extend(old(defaultListOpts), if opts.Some? then opts.value else map[])
      ensures params == defaultListOpts
      ensures history == old(history) + [if opts.Some? then opts.value else map[]]
      ensures Valid()
    {
      var given := if opts.Some? then opts.value else map[];
      defaultListOpts := Extend(defaultListOpts, given);
      params := defaultListOpts;
      history := history + [given];
      assert history[..|history| - 1] == old(history);
    }
  }

  /** The shared defaults after a sequence of `list` calls with the given options. */
  function DefaultsAfter(calls: seq<map<string, OptionValue>>): map<string, OptionValue>
  {
    if calls == [] then map["publicOnly" := BoolValue(false)]
    else Extend(DefaultsAfter(calls[..|calls| - 1]), calls[|calls| - 1])
  }

  /** Later calls inherit earlier options: after any calls, a key holds the
      value of the last call that passed it. */
  lemma {:induction false} ListInherits(calls: seq<map<string, OptionValue>>, i: nat, k: string)
    requires i < |calls| && k in calls[i]
    requires forall j :: i < j < |calls| ==> k !in calls[j]
    ensures k in DefaultsAfter(calls) && DefaultsAfter(calls)[k] == calls[i][k]
    decreases |calls|
  {
    if i < |calls| - 1 {
      var front := calls[..|calls| - 1];
      assert front[i] == calls[i];
      ListInherits(front, i, k);
    }
  }

  /** A key other than `publicOnly` that no call passed is absent from the defaults. */
  lemma {:induction false} ListAbsent(calls: seq<map<string, OptionValue>>, k: string)
    requires k != "publicOnly"
    requires forall j :: 0 <= j < |calls| ==> k !in calls[j]
    ensures k !in DefaultsAfter(calls)
    decreases |calls|
  {
    if calls != [] {
      var front := calls[..|calls| - 1];
      assert forall j :: 0 <= j < |front| ==> front[j] == calls[j];
      ListAbsent(front, k);
    }
  }

  /** `publicOnly` stays `false` until some call passes it. */
  lemma {:induction false} PublicOnlyDefault(calls: seq<map<string, OptionValue>>)
    requires forall j :: 0 <= j < |calls| ==> "publicOnly" !in calls[j]
    ensures "publicOnly" in DefaultsAfter(calls) && DefaultsAfter(calls)["publicOnly"] == BoolValue(false)
    decreases |calls|
  {
    if calls != [] {
      PublicOnlyDefault(calls[..|calls| - 1]);
    }
  }
}
