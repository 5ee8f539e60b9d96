/** The dataset record schema: one query/ground-truth pair with optional
    context, as pydantic validates it from a decoded JSON value. */
module Dataset {
  import opened Wrappers
  import opened Json

  /** One validated record. `context == None` (the field was absent or null)
      is a state distinct from `Some("")`. */
  datatype DatasetModel = DatasetModel(query: string, groundTruth: string, context: Option<string>)

  const QueryKey := "query"
  const GroundTruthKey := "ground_truth"
  const ContextKey := "context"

  /** A required `str` field: present, and a JSON string (no coercion from
      numbers, booleans or null). */
  function RequiredString(members: map<string, JsonValue>, key: string): Option<string>
  {
    if key in members then
      match members[key]
      case JString(s) => Some(s)
      case _ => None
    else None
  }

  /** An `Optional[str]` field with default `None`: `Some(None)` when absent or
      null, `Some(Some(s))` for a JSON string, `None` (a validation error)
      for any other JSON value. */
  function OptionalString(members: map<string, JsonValue>, key: string): Option<Option<string>>
  {
    if key !in members then Some(None)
    else
      match members[key]
      case JNull => Some(None)
      case JString(s) => Some(Some(s))
      case _ => None
  }

  /** Validation of a decoded JSON value against `DatasetModel`. Keys other
      than the three fields are ignored, as pydantic does by default. */
  function Validate(v: JsonValue): (r: Option<DatasetModel>)
    ensures r.Some? ==> v.JObject?
    ensures r.Some? ==> QueryKey in v.members && v.members[QueryKey] == JString(r.value.query)
    ensures r.Some? ==> GroundTruthKey in v.members && v.members[GroundTruthKey] == JString(r.value.groundTruth)
    ensures r.Some? && r.value.context.None? ==> ContextKey !in v.members || v.members[ContextKey] == JNull
    ensures r.Some? && r.value.context.Some? ==>
              ContextKey in v.members && v.members[ContextKey] == JString(r.value.context.value)
  {
    match v
    case JObject(members) =>
      var query := RequiredString(members, QueryKey);
      var groundTruth := RequiredString(members, GroundTruthKey);
      var context := OptionalString(members, ContextKey);
      if query.Some? && groundTruth.Some? && context.Some? then
        Some(DatasetModel(query.value, groundTruth.value, context.value))
      else
        None
    case _ => None
  }

  /** The schema in declarative form: what a JSON value must look like to be
      accepted, stated independently of `Validate`. */
  ghost predicate Conforms(v: JsonValue)
  {
    && v.JObject?
    && (exists q :: QueryKey in v.members && v.members[QueryKey] == JString(q))
    && (exists g :: GroundTruthKey in v.members && v.members[GroundTruthKey] == JString(g))
    && (ContextKey in v.members ==>
          v.members[ContextKey] == JNull || exists c :: v.members[ContextKey] == JString(c))
  }

  /** The JSON object pydantic's `model_dump_json` writes for a record (an
      absent context is written as null). */
  function ToJson(m: DatasetModel): JsonValue
  {
    JObject(map[
      QueryKey := JString(m.query),
      GroundTruthKey := JString(m.groundTruth),
      ContextKey := match m.context { case None => JNull case Some(c) => JString(c) }
    ])
  }

  /** Validation accepts exactly the values that conform to the schema. */
  lemma ValidateAcceptsIffConforms(v: JsonValue)
    ensures Validate(v).Some? <==> Conforms(v)
  {
    if Conforms(v) {
      var members := v.members;
      var q :| QueryKey in members && members[QueryKey] == JString(q);
      var g :| GroundTruthKey in members && members[GroundTruthKey] == JString(g);
      assert RequiredString(members, QueryKey) == Some(q);
      assert RequiredString(members, GroundTruthKey) == Some(g);
      assert OptionalString(members, ContextKey).Some?;
    }
  }

  /** A record without `query`, or whose `query` is not a string, is rejected. */
  lemma MissingQueryRejected(members: map<string, JsonValue>)
    requires QueryKey !in members || !members[QueryKey].JString?
    ensures Validate(JObject(members)) == None
  {
  }

  /** A record without `ground_truth`, or whose `ground_truth` is not a
      string, is rejected. */
  lemma MissingGroundTruthRejected(members: map<string, JsonValue>)
    requires GroundTruthKey !in members || !members[GroundTruthKey].JString?
    ensures Validate(JObject(members)) == None
  {
  }

  /** A missing `context` is accepted and becomes `None`, which is not the
      empty string: the same record with `"context": ""` gives `Some("")`. */
  lemma AbsentContextIsNone(q: string, g: string)
    ensures Validate(JObject(map[QueryKey := JString(q), GroundTruthKey := JString(g)]))
            == Some(DatasetModel(q, g, None))
    ensures Validate(JObject(map[QueryKey := JString(q), GroundTruthKey := JString(g), ContextKey := JString("")]))
            == Some(DatasetModel(q, g, Some("")))
  {
    var absent := map[QueryKey := JString(q), GroundTruthKey := JString(g)];
    assert ContextKey !in absent;
  }

  /** Dumping a record and validating the dump gives the record back. */
  lemma ValidateToJson(m: DatasetModel)
    ensures Validate(ToJson(m)) == Some(m)
  {
  }

  /** Keys outside the schema never change the outcome of validation. */
  lemma ExtraKeysIgnored(members: map<string, JsonValue>, key: string, value: JsonValue)
    requires key != QueryKey && key != GroundTruthKey && key != ContextKey
    ensures Validate(JObject(members[key := value])) == Validate(JObject(members))
  {
    var extended := members[key := value];
    assert RequiredString(extended, QueryKey) == RequiredString(members, QueryKey);
    assert RequiredString(extended, GroundTruthKey) == RequiredString(members, GroundTruthKey);
    assert OptionalString(extended, ContextKey) == OptionalString(members, ContextKey);
  }
}
