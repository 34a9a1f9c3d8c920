/**
  * A field that supporter records can carry, and its factory
  * `SupporterField::fromJson`. The constructor derives `tagged` from `tag`
  * once; here it is the member `IsTagged`.
  */
module SupporterFieldResource {
  import opened Wrappers
  import opened JsonValues
  import Php

  /** The tag ENS reports for a field no tag is attached to. */
  const NOT_TAGGED := "Not Tagged"

  datatype SupporterField = SupporterField(id: int, name: string, tag: string, property: string) {
    /** `isTagged()`: an exact, case-sensitive comparison with the untagged marker. */
    predicate IsTagged() {
      tag != NOT_TAGGED
    }
  }

  /** `SupporterField::fromJson($json)`: the four properties, checked in parameter order. */
  function FromJson(props: map<string, Json>): (r: Result<SupporterField, DecodeError>)
    ensures r.Success? <==>
      Prop(props, "id").JInt? && Prop(props, "name").JStr? &&
      Prop(props, "tag").JStr? && Prop(props, "property").JStr?
    ensures r.Success? ==>
      Prop(props, "id") == JInt(r.value.id) && Prop(props, "name") == JStr(r.value.name) &&
      Prop(props, "tag") == JStr(r.value.tag) && Prop(props, "property") == JStr(r.value.property)
    ensures !Prop(props, "id").JInt? ==> r == Failure(TypeMismatch("id"))
  {
    var id :- IntField(props, "id");
    var name :- StringField(props, "name");
    var tag :- StringField(props, "tag");
    var property :- StringField(props, "property");
    Success(SupporterField(id, name, tag, property))
  }

  /**
    * The comparison is exact and case-sensitive: every tag but the marker
    * itself, including the marker in another case, counts as a tag.
    */
  lemma MarkerIsCaseSensitive(f: SupporterField)
    ensures f.IsTagged() <==> f.tag != NOT_TAGGED
    ensures Php.Lower(f.tag) == Php.Lower(NOT_TAGGED) && f.tag != NOT_TAGGED ==> f.IsTagged()
    ensures f.tag == "not tagged" ==> f.IsTagged()
  {
    if f.tag == "not tagged" {
      assert f.tag[0] != NOT_TAGGED[0];
    }
  }

  /** A decoded field whose JSON tag is the marker is untagged; any other tag makes it tagged. */
  lemma DecodedTag(props: map<string, Json>)
    requires FromJson(props).Success?
    ensures FromJson(props).value.IsTagged() <==> Prop(props, "tag") != JStr(NOT_TAGGED)
  {
  }
}
