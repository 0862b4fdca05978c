/**
 * Custom-field entries: `{id: <registry id>, values: [{value: <v>, [tag]}]}`.
 * `addCustomField` tags with the key "ENUM"; the handlers that build their
 * entries inline tag with the key "enum". Both spellings are kept.
 */
module Fields {
  import opened Wrappers
  import opened Json

  /** The two spellings of the enum tag key found in the component. */
  datatype TagKey = UpperEnum | LowerEnum

  function TagKeyName(k: TagKey): string {
    match k
    case UpperEnum => "ENUM"
    case LowerEnum => "enum"
  }

  /** An optional enum tag on a custom-field value. */
  datatype Tag = Untagged | Tagged(key: TagKey, tag: Json)

  /** A custom-field entry as the CRM reads it. */
  datatype CustomField = CustomField(id: Json, value: Json, tag: Tag)

  /**
   * `self::$fields[$name]`: the registry id, or null (with a PHP notice) for a
   * name the registry does not hold.
   */
  function FieldId(registry: map<string, int>, name: string): (id: Json)
    ensures name in registry <==> id.Int?
    ensures name in registry ==> id == Int(registry[name])
    ensures name !in registry ==> id == Null
  {
    if name in registry then Int(registry[name]) else Null
  }

  /** The single value object of an entry. */
  function ValueObject(value: Json, tag: Tag): Payload {
    match tag
    case Untagged => map["value" := value]
    case Tagged(k, t) => map["value" := value, TagKeyName(k) := t]
  }

  /** The entry `{id, values: [value object]}`. */
  function Entry(f: CustomField): (e: Json)
    ensures ReadCustomField(e) == Some(f)
  {
    var m := ValueObject(f.value, f.tag);
    ReadTagValueObject(f.value, f.tag);
    var e := Object(map["id" := f.id, "values" := List([Object(m)])]);
    assert e.fields.Keys == {"id", "values"};
    e
  }

  /** The tag of a value object that holds `value` and at most one tag key. */
  function ReadTag(m: Payload): Option<Tag> {
    if m.Keys == {"value"} then Some(Untagged)
    else if m.Keys == {"value", "ENUM"} then Some(Tagged(UpperEnum, m["ENUM"]))
    else if m.Keys == {"value", "enum"} then Some(Tagged(LowerEnum, m["enum"]))
    else None
  }

  lemma ReadTagValueObject(value: Json, tag: Tag)
    ensures ReadTag(ValueObject(value, tag)) == Some(tag)
    ensures ValueObject(value, tag)["value"] == value
  {
    match tag
    case Untagged =>
    case Tagged(k, t) =>
      assert ValueObject(value, tag).Keys == {"value", TagKeyName(k)};
  }

  /** Reads an entry back; succeeds exactly on the entries `Entry` builds. */
  function ReadCustomField(e: Json): Option<CustomField> {
    if e.Object? && e.fields.Keys == {"id", "values"}
      && e.fields["values"].List? && |e.fields["values"].items| == 1
      && e.fields["values"].items[0].Object?
    then
      var m := e.fields["values"].items[0].fields;
      match ReadTag(m)
      case Some(tag) => Some(CustomField(e.fields["id"], m["value"], tag))
      case None => None
    else
      None
  }

  /** An entry carries nothing but its id, its one value and its optional tag. */
  lemma CustomFieldExact(e: Json, f: CustomField)
    ensures ReadCustomField(e) == Some(f) <==> e == Entry(f)
  {
    if ReadCustomField(e) == Some(f) {
      var vs := e.fields["values"];
      var m := vs.items[0].fields;
      assert m == ValueObject(f.value, f.tag);
      assert vs.items == [Object(m)];
      assert e.fields == map["id" := f.id, "values" := List([Object(m)])];
    }
  }

  /**
   * The entry `addCustomField($name, $value, $enum)` builds, decoded: the
   * registry id of `name` and the value `value`, tagged under "ENUM" exactly
   * when `enum` is truthy.
   */
  function CustomFieldFor(registry: map<string, int>, name: string, value: Json, enum: Json): (f: CustomField)
    ensures f.id == FieldId(registry, name) && f.value == value
    ensures f.tag.Tagged? <==> Truthy(enum)
    ensures f.tag.Tagged? ==> f.tag == Tagged(UpperEnum, enum)
  {
    CustomField(FieldId(registry, name), value, if Truthy(enum) then Tagged(UpperEnum, enum) else Untagged)
  }

  /**
   * `addCustomField($name, $value, $enum)`: exactly the keys `id` and
   * `values`; `values` is one object holding `value`, plus "ENUM" exactly when
   * `enum` is truthy.
   */
  function AddCustomField(registry: map<string, int>, name: string, value: Json, enum: Json): (e: Json)
    ensures ReadCustomField(e) == Some(CustomFieldFor(registry, name, value, enum))
    ensures e.Object? && e.fields.Keys == {"id", "values"} && e.fields["id"] == FieldId(registry, name)
    ensures var vs := e.fields["values"];
      && vs.List? && |vs.items| == 1 && vs.items[0].Object?
      && vs.items[0].fields.Keys == (if Truthy(enum) then {"value", "ENUM"} else {"value"})
      && vs.items[0].fields["value"] == value
  {
    var f := CustomFieldFor(registry, name, value, enum);
    ReadTagValueObject(value, f.tag);
    Entry(f)
  }

  /** An untagged entry, as the handlers write inline. */
  function PlainValue(registry: map<string, int>, name: string, value: Json): CustomField {
    CustomField(FieldId(registry, name), value, Untagged)
  }

  /** An entry tagged inline with the lower-case key "enum" and the value "WORK". */
  function InlineWorkValue(registry: map<string, int>, name: string, value: Json): CustomField {
    CustomField(FieldId(registry, name), value, Tagged(LowerEnum, Str("WORK")))
  }

  /**
   * The inline untagged entry is the one `addCustomField` builds without an
   * enum; the inline "WORK" entry differs from `addCustomField(.., 'WORK')`
   * only in the spelling of the tag key.
   */
  lemma InlineEntries(registry: map<string, int>, name: string, value: Json)
    ensures Entry(PlainValue(registry, name, value)) == AddCustomField(registry, name, value, Null)
    ensures Entry(InlineWorkValue(registry, name, value)) != AddCustomField(registry, name, value, Str("WORK"))
    ensures InlineWorkValue(registry, name, value).(tag := Tagged(UpperEnum, Str("WORK")))
         == CustomFieldFor(registry, name, value, Str("WORK"))
  {

  }

  /** A list of entries, one per field, in order. */
  function Entries(fs: seq<CustomField>): (l: Json)
    ensures FieldCount(l) == |fs|
    ensures forall i :: 0 <= i < |fs| ==> FieldAt(l, i) == Some(fs[i])
  {
    List(seq(|fs|, i requires 0 <= i < |fs| => Entry(fs[i])))
  }

  /** A payload's `custom_fields` list (null when it has none). */
  function CustomFieldsOf(p: Payload): Json {
    if "custom_fields" in p then p["custom_fields"] else Null
  }

  /** The `i`-th entry of a custom-field list, if it decodes. */
  function FieldAt(l: Json, i: nat): Option<CustomField> {
    if l.List? && i < |l.items| then ReadCustomField(l.items[i]) else None
  }

  /** The number of entries of a custom-field list (0 when it is not a list). */
  function FieldCount(l: Json): nat {
    if l.List? then |l.items| else 0
  }
}
