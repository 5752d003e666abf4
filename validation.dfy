/** The handler's schema check (`validate_data`) over the part of JSON Schema
    that the resource schemas use: an object type, per-property `type`,
    `minimum`, `minLength` and `pattern`, a `required` list and
    `additionalProperties`. Regular-expression search is the one piece of the
    validator kept abstract: it is the parameter `matches(pattern, text)`. */
module Validation {
  import opened Wrappers
  import opened Json

  datatype JsonType = IntegerType | StringType | NullType | BooleanType

  /** The keywords of one property. `format` has no counterpart: the validator
      is called without a format checker, so a format asserts nothing. */
  datatype Property = Property(
    types: set<JsonType>,
    minimum: Option<int>,
    minLength: Option<nat>,
    pattern: Option<string>)

  /** An object schema: `{"type": "object", "properties": ..., "required": ...,
      "additionalProperties": ...}`. */
  datatype Schema = Schema(
    properties: map<string, Property>,
    required: seq<string>,
    additionalProperties: bool)

  /** The JSON Schema type of a value; floats, arrays and objects have none
      of the four types a property may name here. */
  function TypeOf(v: Value): Option<JsonType> {
    match v
    case Null => Some(NullType)
    case Bool(_) => Some(BooleanType)
    case Int(_) => Some(IntegerType)
    case Str(_) => Some(StringType)
    case Other(_) => None
  }

  /** `minimum` constrains numbers only, `minLength` and `pattern` strings only. */
  predicate Satisfies(p: Property, v: Value, matches: (string, string) -> bool): (ok: bool)
    ensures v.Other? ==> !ok
    ensures ok ==> TypeOf(v).value in p.types
    ensures ok && v.Int? && p.minimum.Some? ==> v.i >= p.minimum.value
    ensures ok && v.Str? && p.minLength.Some? ==> |v.s| >= p.minLength.value
    ensures ok && v.Str? && p.pattern.Some? ==> matches(p.pattern.value, v.s)
  {
    && TypeOf(v).Some? && TypeOf(v).value in p.types
    && (p.minimum.Some? && v.Int? ==> v.i >= p.minimum.value)
    && (p.minLength.Some? && v.Str? ==> |v.s| >= p.minLength.value)
    && (p.pattern.Some? && v.Str? ==> matches(p.pattern.value, v.s))
  }

  /** A JSON object is valid against a schema. */
  predicate Conforms(s: Schema, fields: Record, matches: (string, string) -> bool): (ok: bool)
    ensures ok ==> (set k | k in s.required) <= fields.Keys
    ensures ok && !s.additionalProperties ==> fields.Keys <= s.properties.Keys
    ensures s.required == [] && s.additionalProperties ==> (ok <==> forall k :: k in fields && k in s.properties ==>
                                                               Satisfies(s.properties[k], fields[k], matches))
  {
    && (forall k :: k in s.required ==> k in fields)
    && (!s.additionalProperties ==> forall k :: k in fields ==> k in s.properties)
    && (forall k :: k in fields && k in s.properties ==> Satisfies(s.properties[k], fields[k], matches))
  }

  /** The schema a check uses: on updates the `required` list is emptied. */
  function Relaxed(s: Schema, checkRequired: bool): (r: Schema)
    ensures r.properties == s.properties && r.additionalProperties == s.additionalProperties
    ensures r.required == if checkRequired then s.required else []
  {
    if checkRequired then s else s.(required := [])
  }

  /** `validate_data`: true when the body passes, false when it raises
      `ValidationError`. With no schema every body passes; a body that is not
      a JSON object fails any object schema. */
  predicate ValidateData(schema: Option<Schema>, doc: Document, checkRequired: bool,
                         matches: (string, string) -> bool): (ok: bool)
    ensures schema.None? ==> ok
    ensures schema.Some? && doc.NonObject? ==> !ok
    ensures ok && schema.Some? && checkRequired ==> forall k :: k in schema.value.required ==> k in doc.fields
    ensures ok && schema.Some? && !schema.value.additionalProperties ==>
              forall k :: k in doc.fields ==> k in schema.value.properties
    ensures ok && schema.Some? ==> forall k :: k in doc.fields && k in schema.value.properties ==>
              Satisfies(schema.value.properties[k], doc.fields[k], matches)
  {
    match schema
    case None => true
    case Some(s) => doc.Object? && Conforms(Relaxed(s, checkRequired), doc.fields, matches)
  }

  /** Creation (required fields enforced) passes exactly when the update check
      passes and every required field is present. */
  lemma CreateCheckIsUpdateCheckPlusRequired(s: Schema, fields: Record, matches: (string, string) -> bool)
    ensures ValidateData(Some(s), Object(fields), true, matches) <==>
            ValidateData(Some(s), Object(fields), false, matches) && forall k :: k in s.required ==> k in fields
  {
  }

  /** With no schema every body passes, whatever the mode. */
  lemma NoSchemaAcceptsAll(doc: Document, checkRequired: bool, matches: (string, string) -> bool)
    ensures ValidateData(None, doc, checkRequired, matches)
  {
  }

  // ---------------------------------------------------------------------
  // The four built-in schemas

  const IdProperty := Property({IntegerType}, Some(1), None, None)
  const NonEmptyString := Property({StringType}, None, Some(1), None)
  const PositiveInteger := Property({IntegerType}, Some(1), None, None)
  const OptionalUserId := Property({IntegerType, NullType}, Some(1), None, None)
  const EmailPattern := "^[a-zA-Z0-9._%+-]+@[a-zA-Z0-9.-]+\\.[a-zA-Z]{2,}$"

  const UsersSchema := Schema(
    map["id" := IdProperty, "name" := NonEmptyString,
        "email" := Property({StringType}, None, None, Some(EmailPattern))],
    ["name", "email"], false)

  const LocationsSchema := Schema(
    map["id" := IdProperty, "name" := NonEmptyString, "address" := NonEmptyString],
    ["name", "address"], false)

  /** `devices` and `consumption` share one shape. */
  const DevicesSchema := Schema(
    map["id" := IdProperty, "name" := NonEmptyString, "type" := NonEmptyString,
        "location_id" := PositiveInteger, "user_id" := OptionalUserId],
    ["name", "type", "location_id"], false)

  /** The schema file seeded for a resource name, if any. */
  function DefaultSchema(name: string): (r: Option<Schema>)
    ensures r.Some? <==> name in {"users", "locations", "devices", "consumption"}
    ensures r.Some? ==> !r.value.additionalProperties && "id" in r.value.properties
  {
    if name == "users" then Some(UsersSchema)
    else if name == "locations" then Some(LocationsSchema)
    else if name == "devices" || name == "consumption" then Some(DevicesSchema)
    else None
  }

  /** Every built-in schema lets a payload carry its own positive integer
      `id`, in either mode, so such a payload is not rejected for it. */
  lemma BuiltinSchemasAdmitId(name: string, fields: Record, v: int, checkRequired: bool,
                              matches: (string, string) -> bool)
    requires DefaultSchema(name).Some?
    requires ValidateData(DefaultSchema(name), Object(fields), checkRequired, matches)
    requires v >= 1
    ensures ValidateData(DefaultSchema(name), Object(fields["id" := Int(v)]), checkRequired, matches)
  {
    var s := Relaxed(DefaultSchema(name).value, checkRequired);
    var f := fields["id" := Int(v)];
    forall k | k in f && k in s.properties
      ensures Satisfies(s.properties[k], f[k], matches)
    {
      if k != "id" {
        assert k in fields;
      }
    }
  }

  /** A `users` body without `email` is rejected on creation. */
  lemma UsersRequireEmail(fields: Record, matches: (string, string) -> bool)
    requires "email" !in fields
    ensures !ValidateData(DefaultSchema("users"), Object(fields), true, matches)
  {
    assert "email" in UsersSchema.required;
  }

  /** A `users` body with a field the schema does not list is rejected in
      either mode. */
  lemma UsersRejectUnknownField(fields: Record, k: string, checkRequired: bool,
                                matches: (string, string) -> bool)
    requires k in fields && k !in {"id", "name", "email"}
    ensures !ValidateData(DefaultSchema("users"), Object(fields), checkRequired, matches)
  {
  }

  /** A concrete user body carrying `id` 7 passes the creation check when the
      email matches the pattern. */
  lemma UserWithIdAccepted(email: string, matches: (string, string) -> bool)
    requires matches(EmailPattern, email)
    ensures ValidateData(DefaultSchema("users"),
                         Object(map["name" := Str("Ann"), "email" := Str(email), "id" := Int(7)]),
                         true, matches)
  {
    var f := map["name" := Str("Ann"), "email" := Str(email), "id" := Int(7)];
    assert forall k :: k in f ==> k in UsersSchema.properties;
  }

  /** A devices body with name, type and location, and no `id`. */
  const ThermostatBody: Record :=
    map["name" := Str("Thermostat"), "type" := Str("sensor"), "location_id" := Int(1)]

  /** That body passes the creation check of the built-in devices schema. */
  lemma ThermostatAccepted(matches: (string, string) -> bool)
    ensures ValidateData(DefaultSchema("devices"), Object(ThermostatBody), true, matches)
  {
    var s := DevicesSchema;
    assert ThermostatBody.Keys == {"name", "type", "location_id"};
    forall k | k in ThermostatBody
      ensures k in s.properties && Satisfies(s.properties[k], ThermostatBody[k], matches)
    {
      if k == "location_id" {
        assert s.properties[k] == PositiveInteger;
      } else {
        assert s.properties[k] == NonEmptyString;
      }
    }
  }
}
