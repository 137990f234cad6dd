// What the agent reports about a ManifestWork, and how the transport hands it to adapters.
module Status {
  import opened Wrappers
  import opened Json
  import opened Text
  import opened ApiTypes

  // A feedback value; a None payload is Go's nil pointer.
  datatype FieldValue =
    | StringValue(text: Option<string>)
    | IntegerValue(number: Option<int>)
    | BooleanValue(flag: Option<bool>)
    | RawValue(raw: Option<string>)

  datatype Feedback = Feedback(name: string, value: FieldValue)

  datatype WorkStatus = WorkStatus(conditions: seq<Condition>, resources: seq<seq<Feedback>>)

  const NO_STATUS := WorkStatus([], [])

  // The status as the reconcilers see it: one map of feedback texts per manifest.
  datatype ManifestWorkStatus = ManifestWorkStatus(
    conditions: seq<Condition>,
    resourceStatuses: seq<map<string, string>>)

  function FeedbackValueToString(v: FieldValue): string {
    match v
    case StringValue(Some(s)) => s
    case IntegerValue(Some(n)) => FormatInt(n)
    case BooleanValue(Some(b)) => if b then "true" else "false"
    case RawValue(Some(s)) => s
    case _ => ""
  }

  /** A later value of the same name replaces an earlier one. */
  function FeedbackMap(values: seq<Feedback>): map<string, string> {
    if values == [] then map[]
    else
      var last := values[|values| - 1];
      FeedbackMap(values[..|values| - 1])[last.name := FeedbackValueToString(last.value)]
  }

  function Reported(status: WorkStatus): ManifestWorkStatus {
    ManifestWorkStatus(status.conditions,
      seq(|status.resources|, i requires 0 <= i < |status.resources| => FeedbackMap(status.resources[i])))
  }

  lemma {:induction false} FeedbackMapHas(values: seq<Feedback>, name: string)
    ensures name in FeedbackMap(values) <==> exists v :: v in values && v.name == name
  {
    hide FeedbackValueToString;
    if values != [] {
      var front, last := values[..|values| - 1], values[|values| - 1];
      FeedbackMapHas(front, name);
      assert values == front + [last];
      if name == last.name { assert last in values; }
    }
  }

  /** A name of the map has the text of the last value that bears the name. */
  lemma {:induction false} FeedbackMapIsLast(values: seq<Feedback>, i: nat)
    requires i < |values| && forall j :: i < j < |values| ==> values[j].name != values[i].name
    ensures values[i].name in FeedbackMap(values)
    ensures FeedbackMap(values)[values[i].name] == FeedbackValueToString(values[i].value)
  {
    hide FeedbackValueToString;
    if i < |values| - 1 {
      FeedbackMapIsLast(values[..|values| - 1], i);
    }
  }

  /** The transport's GetStatus mapping, filled in loop by loop. */
  method MapStatus(status: WorkStatus) returns (r: ManifestWorkStatus)
    ensures r == Reported(status)
  {
    var resourceStatuses: seq<map<string, string>> := [];
    for i := 0 to |status.resources|
      invariant |resourceStatuses| == i
      invariant forall k :: 0 <= k < i ==> resourceStatuses[k] == FeedbackMap(status.resources[k])
    {
      var m: map<string, string> := map[];
      var values := status.resources[i];
      for j := 0 to |values|
        invariant m == FeedbackMap(values[..j])
      {
        assert values[..j + 1][..j] == values[..j];
        m := m[values[j].name := FeedbackValueToString(values[j].value)];
      }
      assert values[..|values|] == values;
      resourceStatuses := resourceStatuses + [m];
    }
    r := ManifestWorkStatus(status.conditions, resourceStatuses);
    assert r.resourceStatuses == Reported(status).resourceStatuses;
  }

  /** The text of a feedback value; a nil pointer reads as "". */
  ghost predicate TextIs(value: FieldValue, text: string) {
    match value
    case StringValue(s) => text == s.GetOr("")
    case IntegerValue(n) => if n.Some? then text == FormatInt(n.value) else text == ""
    case BooleanValue(b) =>
      (b == Some(true) && text == "true") || (b == Some(false) && text == "false") || (b == None && text == "")
    case RawValue(raw) => text == raw.GetOr("")
  }

  /** What is reported under a name of a manifest is the text of the last value of that name. */
  lemma ReportedText(status: WorkStatus, m: nat, i: nat)
    requires m < |status.resources| && i < |status.resources[m]|
    requires forall j :: i < j < |status.resources[m]| ==>
      status.resources[m][j].name != status.resources[m][i].name
    ensures var r, name := Reported(status), status.resources[m][i].name;
            && r.conditions == status.conditions && |r.resourceStatuses| == |status.resources|
            && name in r.resourceStatuses[m] && TextIs(status.resources[m][i].value, r.resourceStatuses[m][name])
  {
    hide FeedbackMap;
    FeedbackMapIsLast(status.resources[m], i);
  }

  function ConditionJson(c: Condition): Json {
    Obj(map["type" := Str(c.kind), "status" := Str(c.status), "reason" := Str(c.reason)])
  }

  // A typed value: its type and, unless it is nil, the value under the type's own member.
  function ValueJson(v: FieldValue): Json {
    match v
    case StringValue(s) => TypedJson("String", "string", if s.Some? then Some(Str(s.value)) else None)
    case IntegerValue(n) => TypedJson("Integer", "integer", if n.Some? then Some(Num(n.value)) else None)
    case BooleanValue(b) => TypedJson("Boolean", "boolean", if b.Some? then Some(Bool(b.value)) else None)
    case RawValue(s) => TypedJson("JsonRaw", "jsonRaw", if s.Some? then Some(Str(s.value)) else None)
  }

  function TypedJson(kind: string, member: string, value: Option<Json>): Json {
    Obj(if value.Some? then map["type" := Str(kind), member := value.value] else map["type" := Str(kind)])
  }

  function FeedbackJson(f: Feedback): Json {
    Obj(map["name" := Str(f.name), "fieldValue" := ValueJson(f.value)])
  }

  function ResourceStatusJson(values: seq<Feedback>): Json {
    Obj(map["statusFeedback" := Obj(map["values" := Arr(seq(|values|, j requires 0 <= j < |values| =>
      FeedbackJson(values[j])))])])
  }

  function StatusJson(status: WorkStatus): Json {
    Obj(map[
      "conditions" := Arr(seq(|status.conditions|,
                              i requires 0 <= i < |status.conditions| => ConditionJson(status.conditions[i]))),
      "resourceStatus" := Obj(map["manifests" := Arr(seq(|status.resources|,
                              i requires 0 <= i < |status.resources| => ResourceStatusJson(status.resources[i])))])])
  }

  /** The elements of the list at a path; none if there is no list. */
  ghost function ListAt(doc: Json, path: seq<string>): seq<Json> {
    var list := At(doc, path);
    if list.Some? && list.value.Arr? then list.value.items else []
  }

  lemma StatusParts(status: WorkStatus)
    ensures var doc := StatusJson(status);
            && |ListAt(doc, ["conditions"])| == |status.conditions|
            && |ListAt(doc, ["resourceStatus", "manifests"])| == |status.resources|
            && (forall i :: 0 <= i < |status.conditions| ==>
                ListAt(doc, ["conditions"])[i] == ConditionJson(status.conditions[i]))
            && (forall m :: 0 <= m < |status.resources| ==>
                ListAt(doc, ["resourceStatus", "manifests"])[m] == ResourceStatusJson(status.resources[m]))
  {
    hide ConditionJson, ResourceStatusJson;
    var doc := StatusJson(status);
    AtMember(doc, "conditions");
    AtStep(doc, "resourceStatus", ["manifests"]);
    AtMember(doc.fields["resourceStatus"], "manifests");
    assert ["resourceStatus"] + ["manifests"] == ["resourceStatus", "manifests"];
  }

  lemma ResourceParts(values: seq<Feedback>)
    ensures var list := ListAt(ResourceStatusJson(values), ["statusFeedback", "values"]);
            |list| == |values| && forall i :: 0 <= i < |values| ==> list[i] == FeedbackJson(values[i])
  {
    hide FeedbackJson;
    var doc := ResourceStatusJson(values);
    AtStep(doc, "statusFeedback", ["values"]);
    AtMember(doc.fields["statusFeedback"], "values");
    assert ["statusFeedback"] + ["values"] == ["statusFeedback", "values"];
  }

  /** A typed value at a path: its type, and the value under the member the type goes by. */
  ghost predicate ValueAt(doc: Json, value: FieldValue) {
    match value
    case StringValue(s) => TypeAt(doc, "String") && (s.Some? ==> At(doc, ["string"]) == Some(Str(s.value)))
    case IntegerValue(n) => TypeAt(doc, "Integer") && (n.Some? ==> At(doc, ["integer"]) == Some(Num(n.value)))
    case BooleanValue(b) => TypeAt(doc, "Boolean") && (b.Some? ==> At(doc, ["boolean"]) == Some(Bool(b.value)))
    case RawValue(raw) => TypeAt(doc, "JsonRaw") && (raw.Some? ==> At(doc, ["jsonRaw"]) == Some(Str(raw.value)))
  }

  ghost predicate TypeAt(doc: Json, kind: string) {
    At(doc, ["type"]) == Some(Str(kind))
  }

  lemma TypedSays(kind: string, member: string, value: Json)
    requires member != "type"
    ensures TypeAt(TypedJson(kind, member, None), kind) && TypeAt(TypedJson(kind, member, Some(value)), kind)
    ensures At(TypedJson(kind, member, Some(value)), [member]) == Some(value)
  {
    hide At;
    AtMember(TypedJson(kind, member, None), "type");
    AtMember(TypedJson(kind, member, Some(value)), "type");
    AtMember(TypedJson(kind, member, Some(value)), member);
  }

  lemma ValueSays(value: FieldValue)
    ensures ValueAt(ValueJson(value), value)
  {
    hide TypedJson, At;
    assert |"type"| == 4 && |"string"| == 6 && |"integer"| == 7;
    match value
    case StringValue(s) => TypedSays("String", "string", Str(s.GetOr("")));
    case IntegerValue(n) => TypedSays("Integer", "integer", Num(n.GetOr(0)));
    case BooleanValue(b) => TypedSays("Boolean", "boolean", Bool(b.GetOr(false)));
    case RawValue(raw) => TypedSays("JsonRaw", "jsonRaw", Str(raw.GetOr("")));
  }

  lemma ConditionSays(c: Condition)
    ensures var doc := ConditionJson(c);
            && At(doc, ["type"]) == Some(Str(c.kind)) && At(doc, ["status"]) == Some(Str(c.status))
            && At(doc, ["reason"]) == Some(Str(c.reason))
  {
    hide At;
    AtMember(ConditionJson(c), "type");
    AtMember(ConditionJson(c), "status");
    AtMember(ConditionJson(c), "reason");
  }

  lemma FeedbackReads(f: Feedback)
    ensures At(FeedbackJson(f), ["name"]) == Some(Str(f.name))
    ensures At(FeedbackJson(f), ["fieldValue"]) == Some(ValueJson(f.value))
  {
    hide At, ValueJson;
    AtMember(FeedbackJson(f), "name");
    AtMember(FeedbackJson(f), "fieldValue");
  }

  /** The status in a document, element by element. */
  lemma StatusSays(status: WorkStatus, i: nat, m: nat, j: nat)
    ensures var doc := StatusJson(status);
            && |ListAt(doc, ["conditions"])| == |status.conditions|
            && |ListAt(doc, ["resourceStatus", "manifests"])| == |status.resources|
            && (i < |status.conditions| ==>
                  var c, was := ListAt(doc, ["conditions"])[i], status.conditions[i];
                  At(c, ["type"]) == Some(Str(was.kind)) && At(c, ["status"]) == Some(Str(was.status))
                  && At(c, ["reason"]) == Some(Str(was.reason)))
            && (m < |status.resources| ==>
                  var values := ListAt(ListAt(doc, ["resourceStatus", "manifests"])[m], ["statusFeedback", "values"]);
                  && |values| == |status.resources[m]|
                  && (j < |values| ==>
                        && At(values[j], ["name"]) == Some(Str(status.resources[m][j].name))
                        && At(values[j], ["fieldValue"]).Some?
                        && ValueAt(At(values[j], ["fieldValue"]).value, status.resources[m][j].value)))
  {
    hide At, ListAt, ConditionJson, ResourceStatusJson, FeedbackJson, ValueAt, ValueJson;
    StatusParts(status);
    if i < |status.conditions| { ConditionSays(status.conditions[i]); }
    if m < |status.resources| {
      ResourceParts(status.resources[m]);
      if j < |status.resources[m]| {
        FeedbackReads(status.resources[m][j]);
        ValueSays(status.resources[m][j].value);
      }
    }
  }
}
