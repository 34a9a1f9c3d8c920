/**
  * The "Supporter" resource and its factory `Supporter::fromJson`.
  *
  * The factory copies the decoded object into an array and unsets five keys
  * one by one; what remains is the custom-field map. The fourth key is
  * written `memberships]`, so a `memberships` property is not unset and stays
  * among the custom fields as well as being copied to `memberships`.
  */
module SupporterResource {
  import opened Wrappers
  import opened JsonValues
  import opened Exceptions

  /** The keys `fromJson` unsets, spelled as the factory spells them. */
  const STRIPPED_KEYS: set<string> := {"supporterId", "suppressed", "Email Address", "memberships]", "questions"}

  datatype Supporter = Supporter(
    supporterId: int,
    suppressed: bool,
    emailAddress: string,
    fields: Option<map<string, Json>>,
    memberships: Option<seq<Json>>,
    questions: Option<seq<Json>>)
  {
    /** `getFields()` is declared to return a non-nullable array, so it throws `TypeError` on a supporter without fields. */
    function GetFields(): (r: Result<map<string, Json>, DecodeError>)
      ensures r.Success? <==> fields.Some?
      ensures r.Success? ==> r.value == fields.value
      ensures r.Failure? ==> r.error == TypeMismatch("fields")
    {
      if fields.Some? then Success(fields.value) else Failure(TypeMismatch("fields"))
    }

    /**
      * `getField($name)`: the stored value when it is set (present and not
      * null); otherwise SupporterFieldNotFoundException for that name, which
      * also covers a supporter whose field map is null.
      */
    function GetField(name: string): (r: Result<Json, FieldNotFound>)
      ensures r.Success? <==> fields.Some? && name in fields.value && fields.value[name] != JNull
      ensures r.Success? ==> r.value == fields.value[name]
      ensures r.Failure? ==> r.error == FieldNotFound(name) && r.error.GetFieldName() == name
    {
      if fields.Some? && name in fields.value && fields.value[name] != JNull
      then Success(fields.value[name])
      else Failure(FieldNotFound(name))
    }
  }

  /** The custom-field map: every property of the object except the stripped keys, with its value. */
  function CustomFields(json: map<string, Json>): (fields: map<string, Json>)
    ensures forall k :: k in fields <==> k in json && k !in STRIPPED_KEYS
    ensures forall k :: k in fields ==> fields[k] == json[k]
  {
    json - STRIPPED_KEYS
  }

  /** `property_exists($json, k) ? $json->k : null` for an `?array` parameter. */
  function OptionalList(json: map<string, Json>, k: string): (r: Result<Option<seq<Json>>, DecodeError>)
    ensures k !in json ==> r == Success(None)
    ensures k in json ==> r == OptArrayField(json, k)
  {
    if k in json then OptArrayField(json, k) else Success(None)
  }

  /**
    * What `Supporter::fromJson($json)` yields: the three copied properties,
    * the custom fields (null when none remain) and the two optional lists;
    * the first parameter of the wrong kind raises `TypeError`.
    */
  function Decode(json: map<string, Json>): (r: Result<Supporter, DecodeError>)
    ensures r.Success? ==>
      Prop(json, "supporterId") == JInt(r.value.supporterId) &&
      Prop(json, "suppressed") == JBool(r.value.suppressed) &&
      Prop(json, "Email Address") == JStr(r.value.emailAddress)
    ensures r.Success? ==>
      r.value.fields == (if CustomFields(json) == map[] then None else Some(CustomFields(json)))
    ensures r.Success? ==>
      OptionalList(json, "memberships") == Success(r.value.memberships) &&
      OptionalList(json, "questions") == Success(r.value.questions)
    ensures r.Success? <==>
      Prop(json, "supporterId").JInt? && Prop(json, "suppressed").JBool? &&
      Prop(json, "Email Address").JStr? &&
      OptionalList(json, "memberships").Success? && OptionalList(json, "questions").Success?
  {
    var supporterId :- IntField(json, "supporterId");
    var suppressed :- BoolField(json, "suppressed");
    var emailAddress :- StringField(json, "Email Address");
    var memberships :- OptionalList(json, "memberships");
    var questions :- OptionalList(json, "questions");
    var fields := CustomFields(json);
    Success(Supporter(supporterId, suppressed, emailAddress,
      if fields == map[] then None else Some(fields), memberships, questions))
  }

  /** `Supporter::fromJson($json)`: unsets the stripped keys one by one from a copy of the object. */
  method FromJson(json: map<string, Json>) returns (r: Result<Supporter, DecodeError>)
    ensures r == Decode(json)
  {
    var fields := json;
    fields := fields - {"supporterId"};
    fields := fields - {"suppressed"};
    fields := fields - {"Email Address"};
    fields := fields - {"memberships]"};
    fields := fields - {"questions"};
    assert fields == CustomFields(json);
    var supporterId :- IntField(json, "supporterId");
    var suppressed :- BoolField(json, "suppressed");
    var emailAddress :- StringField(json, "Email Address");
    var memberships :- OptionalList(json, "memberships");
    var questions :- OptionalList(json, "questions");
    var kept := if fields == map[] then None else Some(fields);
    r := Success(Supporter(supporterId, suppressed, emailAddress, kept, memberships, questions));
  }

  /** The misspelt key: `memberships` survives in the custom fields, and nothing is ever stored under `memberships]`. */
  lemma MembershipsStayInFields(json: map<string, Json>)
    ensures "memberships" in json ==> "memberships" in CustomFields(json)
    ensures "memberships]" !in CustomFields(json)
    ensures "questions" !in CustomFields(json) && "supporterId" !in CustomFields(json)
  {
    assert "memberships" !in STRIPPED_KEYS;
  }

  /** The field map is null exactly when every property of the object is a stripped key. */
  lemma FieldsNullIffOnlyStrippedKeys(json: map<string, Json>)
    ensures CustomFields(json) == map[] <==> json.Keys <= STRIPPED_KEYS
  {
    forall k | k in json
      ensures k in STRIPPED_KEYS || k in CustomFields(json)
    {
    }
  }

  /**
    * `getField` on a decoded supporter: a custom property that is set is
    * returned as decoded; a stripped key, even one present in the JSON, is
    * never found.
    */
  lemma GetFieldAfterDecode(json: map<string, Json>, s: Supporter, name: string)
    requires s.fields == (if CustomFields(json) == map[] then None else Some(CustomFields(json)))
    ensures name in json && name !in STRIPPED_KEYS && json[name] != JNull ==> s.GetField(name) == Success(json[name])
    ensures name in STRIPPED_KEYS ==> s.GetField(name) == Failure(FieldNotFound(name))
    ensures name !in json ==> s.GetField(name).Failure?
  {
    if name in json && name !in STRIPPED_KEYS {
      assert name in CustomFields(json);
    }
  }
}
