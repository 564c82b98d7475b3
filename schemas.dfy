/**
 * Field validators and schemas (lawg/schemas.py), with the part of
 * marshmallow's `Schema.load` they rely on: required and nullable fields,
 * per-kind deserialisation, validators, and the unknown-key policy.
 */
module Schemas {
  import opened Wrappers
  import opened Json
  import opened Exceptions

  // ----- validators -----

  /** The `validate=` arguments the schemas use. */
  datatype Validator =
    | Length(min: nat, max: nat)              // validate.Length, inclusive bounds
    | NamespacePattern                        // validate.Regexp(r"^[a-z0-9_-]+$")
    | Range(low: Option<int>, high: Option<int>) // validate.Range, inclusive bounds
    | Equal(expected: Value)                  // validate.Equal

  /** The field classes the schemas use. */
  datatype Kind =
    | StrField
    | IntField
    | FloatField
    | BoolField
    | DateTimeField
    | DictField
    | TagsField                 // Dict(keys=Str(Length(1, 175)), values=Union[Str, Int, Float, Bool])
    | PikaIdField(prefix: string)
    | NestedField(schema: Schema)
    | ListField(elem: Kind)

  datatype FieldSpec = FieldSpec(kind: Kind, required: bool, allowNone: bool, validators: seq<Validator>)

  /** `Meta.unknown`: marshmallow's default RAISE, or EXCLUDE (response schemas). */
  datatype Unknown = Raise | Exclude

  datatype Schema = Schema(fields: map<string, FieldSpec>, unknown: Unknown)

  // ----- PikaId -----

  datatype PikaIdError = Blank | InvalidType | InvalidId

  predicate StartsWith(s: string, prefix: string) {
    |prefix| <= |s| && s[..|prefix|] == prefix
  }

  /** `PikaId._validate`: blank first, then type, then prefix; an accepted
      value is returned unchanged. */
  function ValidatePikaId(v: Value, prefix: string): (r: Result<Value, PikaIdError>)
    ensures r.Ok? <==> v.Str? && v.s != "" && StartsWith(v.s, prefix + "_")
    ensures r.Ok? ==> r.value == v
    ensures !Truthy(v) ==> r == Err(Blank)
    ensures Truthy(v) && !v.Str? ==> r == Err(InvalidType)
    ensures Truthy(v) && v.Str? && !StartsWith(v.s, prefix + "_") ==> r == Err(InvalidId)
  {
    if !Truthy(v) then Err(Blank)
    else if !v.Str? then Err(InvalidType)
    else if !StartsWith(v.s, prefix + "_") then Err(InvalidId)
    else Ok(v)
  }

  // ----- the namespace pattern -----

  predicate NamespaceChar(c: char) {
    ('a' <= c <= 'z') || ('0' <= c <= '9') || c == '_' || c == '-'
  }

  predicate AllNamespaceChars(s: string) {
    forall i :: 0 <= i < |s| ==> NamespaceChar(s[i])
  }

  /** Length of the greedy run of `[a-z0-9_-]` at the start of `s`. */
  function LeadingRun(s: string): (n: nat)
    ensures n <= |s|
    ensures AllNamespaceChars(s[..n])
    ensures n < |s| ==> !NamespaceChar(s[n])
  {
    if s == [] || !NamespaceChar(s[0]) then 0
    else
      var n := 1 + LeadingRun(s[1..]);
      assert s[..n] == [s[0]] + s[1..][..n - 1];
      n
  }

  /** `re.match(r"^[a-z0-9_-]+$", s)` as Python evaluates it: `$` also
      matches just before a newline that ends the string. */
  function NamespaceMatchesAsWritten(s: string): (b: bool)
    ensures b <==> (s != [] && AllNamespaceChars(s))
                   || (|s| >= 2 && s[|s| - 1] == '\n' && AllNamespaceChars(s[..|s| - 1]))
  {
    var n := LeadingRun(s);
    assert n == |s| ==> s[..n] == s;
    assert AllNamespaceChars(s) ==> n == |s|;
    assert |s| >= 1 && AllNamespaceChars(s[..|s| - 1]) && s[|s| - 1] == '\n' ==> n == |s| - 1;
    n >= 1 && (n == |s| || (n == |s| - 1 && s[n] == '\n'))
  }

  /** The evidently intended check: the whole string matches the class. */
  function NamespaceMatches(s: string): (b: bool)
    ensures b <==> s != [] && AllNamespaceChars(s)
  {
    var n := LeadingRun(s);
    assert n == |s| ==> s[..n] == s;
    assert AllNamespaceChars(s) ==> n == |s|;
    n >= 1 && n == |s|
  }

  /** The discrepancy: a namespace ending in a newline passes the pattern
      as written, and not the intended one. */
  lemma NamespaceTrailingNewline()
    ensures NamespaceMatchesAsWritten("acme\n")
    ensures !NamespaceMatches("acme\n")
  {
    assert "acme\n"[..4] == "acme";
    assert !NamespaceChar("acme\n"[4]);
  }

  // ----- deserialisation of one field -----

  /** Python's `int(r)`: truncation toward zero. */
  function Trunc(r: real): int {
    if r >= 0.0 then r.Floor else -((-r).Floor)
  }

  const BoolTruthy: set<string> :=
    {"t", "T", "true", "True", "TRUE", "on", "On", "ON", "y", "Y", "yes", "Yes", "YES", "1"}
  const BoolFalsy: set<string> :=
    {"f", "F", "false", "False", "FALSE", "off", "Off", "OFF", "n", "N", "no", "No", "NO", "0"}

  /** A value `fields.Boolean` reads as true or as false. */
  function AsBool(v: Value): Option<bool> {
    match v
    case Bool(b) => Some(b)
    case Int(i) => if i == 1 then Some(true) else if i == 0 then Some(false) else None
    case Num(r) => if r == 1.0 then Some(true) else if r == 0.0 then Some(false) else None
    case Str(s) => if s in BoolTruthy then Some(true) else if s in BoolFalsy then Some(false) else None
    case _ => None
  }

  /** A value the tag-value union accepts. */
  predicate TagScalar(v: Value) {
    v.Str? || v.Int? || v.Num? || v.Bool?
  }

  predicate ValidTags(m: map<string, Value>) {
    forall k | k in m :: 1 <= |k| <= 175 && TagScalar(m[k])
  }

  /** `len(v)` for the values that have one. */
  function Len(v: Value): Option<nat> {
    match v
    case Str(s) => Some(|s|)
    case Arr(xs) => Some(|xs|)
    case Obj(m) => Some(|m|)
    case _ => None
  }

  predicate Check(rule: Validator, v: Value) {
    match rule
    case Length(min, max) => Len(v).Some? && min <= Len(v).value <= max
    case NamespacePattern => v.Str? && NamespaceMatches(v.s)
    case Range(low, high) =>
      v.Int? && (low.None? || low.value <= v.i) && (high.None? || v.i <= high.value)
    case Equal(expected) => v == expected
  }

  /** Every validator of the field accepts the deserialised value. */
  predicate Passes(rules: seq<Validator>, v: Value) {
    forall i | 0 <= i < |rules| :: Check(rules[i], v)
  }

  /** A field's `_deserialize` on a non-null value. */
  function Deserialize(k: Kind, v: Value): Result<Value, ()>
    decreases k, 0, 0
  {
    match k
    case StrField => if v.Str? then Ok(v) else Err(())
    case IntField =>
      if v.Int? then Ok(v) else if v.Num? then Ok(Int(Trunc(v.r))) else Err(())
    case FloatField =>
      if v.Int? then Ok(Num(v.i as real)) else if v.Num? then Ok(v) else Err(())
    case BoolField => if AsBool(v).Some? then Ok(Bool(AsBool(v).value)) else Err(())
    case DateTimeField => if v.Str? && v.s != "" then Ok(v) else Err(())
    case DictField => if v.Obj? then Ok(v) else Err(())
    case TagsField => if v.Obj? && ValidTags(v.fields) then Ok(v) else Err(())
    case PikaIdField(prefix) => if ValidatePikaId(v, prefix).Ok? then Ok(v) else Err(())
    case NestedField(s) =>
      (match Load(s, v)
       case Ok(loaded) => Ok(Obj(loaded))
       case Err(_) => Err(()))
    case ListField(e) =>
      if v.Arr? then
        match DeserializeAll(e, v.items)
        case Ok(xs) => Ok(Arr(xs))
        case Err(_) => Err(())
      else Err(())
  }

  /** Every element of a list through the element field (`None` elements
      are refused, as the element fields do not allow none). */
  function DeserializeAll(e: Kind, xs: seq<Value>): (r: Result<seq<Value>, ()>)
    ensures r.Ok? <==> forall i | 0 <= i < |xs| :: xs[i] != Null && Deserialize(e, xs[i]).Ok?
    ensures r.Ok? ==> |r.value| == |xs| && forall i | 0 <= i < |xs| :: r.value[i] == Deserialize(e, xs[i]).value
    decreases e, 1, |xs|
  {
    if xs == [] then Ok([])
    else if xs[0] == Null then Err(())
    else
      match Deserialize(e, xs[0])
      case Err(_) => Err(())
      case Ok(x) =>
        match DeserializeAll(e, xs[1..])
        case Err(_) => Err(())
        case Ok(rest) => Ok([x] + rest)
  }

  /** `Field.deserialize`: `None` is accepted only by a nullable field and
      skips the validators; anything else is deserialised, then validated. */
  function FieldResult(spec: FieldSpec, raw: Value): Result<Value, ()>
    decreases spec, 1, 0
  {
    if raw == Null then
      if spec.allowNone then Ok(Null) else Err(())
    else
      match Deserialize(spec.kind, raw)
      case Err(_) => Err(())
      case Ok(v) =>
        if Passes(spec.validators, v) then Ok(v) else Err(())
  }

  // ----- Schema.load -----

  /** The fields that fail: declared fields that are missing although
      required or present and rejected, plus unknown keys under RAISE. */
  function Failed(s: Schema, m: map<string, Value>): set<string>
    decreases s, 1, 1
  {
    (set k | k in s.fields && (if k in m then FieldResult(s.fields[k], m[k]).Err? else s.fields[k].required))
    + (if s.unknown == Raise then m.Keys - s.fields.Keys else {})
  }

  /** The loaded dict: the declared fields present in the input, deserialised.
      No default is inserted for an absent field. */
  function Loaded(s: Schema, m: map<string, Value>): map<string, Value>
    decreases s, 1, 1
  {
    map k | k in s.fields && k in m && FieldResult(s.fields[k], m[k]).Ok? :: FieldResult(s.fields[k], m[k]).value
  }

  /** `schema.load(data)`: a non-dict fails as a whole; any other failure
      names the failing fields; a success holds only declared keys that the
      input has. */
  function Load(s: Schema, data: Value): (r: Result<map<string, Value>, Error>)
    ensures !data.Obj? ==> r == Err(Validation({"_schema"}))
    ensures r.Err? ==> r.error.Validation? && r.error.fields != {}
    ensures r.Ok? ==> data.Obj? && r.value.Keys <= s.fields.Keys * data.fields.Keys
    decreases s, 2, 0
  {
    if !data.Obj? then Err(Validation({"_schema"}))
    else if Failed(s, data.fields) == {} then Ok(Loaded(s, data.fields))
    else Err(Validation(Failed(s, data.fields)))
  }

  // ----- the constrained-string partials -----

  function LengthField(min: nat, max: nat, required: bool, allowNone: bool): FieldSpec {
    FieldSpec(StrField, required, allowNone, [Length(min, max)])
  }

  function ProjectNamespaceField(required: bool): FieldSpec {
    FieldSpec(StrField, required, false, [Length(1, 32), NamespacePattern])
  }
  function ProjectNameField(required: bool): FieldSpec { LengthField(1, 32, required, false) }
  function UsernameField(required: bool): FieldSpec { LengthField(1, 32, required, false) }
  function FeedNameField(required: bool, allowNone: bool): FieldSpec { LengthField(1, 24, required, allowNone) }
  function FeedDescriptionField(required: bool, allowNone: bool): FieldSpec { LengthField(1, 128, required, allowNone) }
  function EventTitleField(required: bool, allowNone: bool): FieldSpec { LengthField(1, 32, required, allowNone) }
  function EventDescriptionField(required: bool, allowNone: bool): FieldSpec { LengthField(1, 4096, required, allowNone) }
  function EventTagsField(): FieldSpec { FieldSpec(TagsField, false, true, []) }
  function InsightTitleField(required: bool, allowNone: bool): FieldSpec { LengthField(1, 32, required, allowNone) }
  function InsightDescriptionField(required: bool, allowNone: bool): FieldSpec { LengthField(1, 128, required, allowNone) }
  function EmojiField(required: bool, allowNone: bool): FieldSpec { LengthField(1, 32, required, allowNone) }

  function PikaId(prefix: string): FieldSpec { FieldSpec(PikaIdField(prefix), true, false, []) }
  function Plain(kind: Kind, required: bool, allowNone: bool): FieldSpec { FieldSpec(kind, required, allowNone, []) }

  // ----- project schemas -----

  const ProjectAcceptInvitationSlugSchema := Schema(map["namespace" := ProjectNamespaceField(true)], Raise)
  const ProjectCreateBodySchema :=
    Schema(map["name" := ProjectNameField(true), "namespace" := ProjectNamespaceField(true)], Raise)
  const ProjectDeleteSlugSchema := Schema(map["namespace" := ProjectNamespaceField(true)], Raise)
  const ProjectGetSlugSchema := Schema(map["namespace" := ProjectNamespaceField(true)], Raise)
  const ProjectInviteMemberSlugSchema :=
    Schema(map["namespace" := ProjectNamespaceField(true), "username" := UsernameField(true)], Raise)
  const ProjectPatchBodySchema := Schema(map["name" := ProjectNameField(true)], Raise)
  const ProjectPatchSlugSchema := Schema(map["namespace" := ProjectNamespaceField(true)], Raise)
  const ProjectRemoveMemberSlugSchema :=
    Schema(map["namespace" := ProjectNamespaceField(true), "username" := UsernameField(true)], Raise)
  const ProjectRevokeInvitationSlugSchema :=
    Schema(map["namespace" := ProjectNamespaceField(true), "username" := UsernameField(true)], Raise)

  // ----- feed schemas -----

  const FeedCreateBodySchema := Schema(map[
    "name" := FeedNameField(true, false),
    "description" := FeedDescriptionField(false, true),
    "emoji" := EmojiField(false, true)], Raise)
  const FeedCreateSlugSchema := Schema(map["namespace" := ProjectNamespaceField(true)], Raise)
  const FeedDeleteSlugSchema :=
    Schema(map["namespace" := ProjectNamespaceField(true), "feed_name" := FeedNameField(true, false)], Raise)
  const FeedPatchBodySchema := Schema(map[
    "name" := FeedNameField(false, true),
    "description" := FeedDescriptionField(false, true),
    "emoji" := EmojiField(false, true)], Raise)
  const FeedPatchSlugSchema :=
    Schema(map["namespace" := ProjectNamespaceField(true), "feed_name" := FeedNameField(true, false)], Raise)
  const FeedReadSlugSchema :=
    Schema(map["namespace" := ProjectNamespaceField(true), "feed_name" := FeedNameField(true, false)], Raise)

  // ----- event schemas -----

  const EventCreateSlugSchema :=
    Schema(map["namespace" := ProjectNamespaceField(true), "feed" := FeedNameField(true, false)], Raise)
  const EventCreateBodySchema := Schema(map[
    "title" := EventTitleField(true, false),
    "description" := EventDescriptionField(false, true),
    "emoji" := EmojiField(false, true),
    "tags" := EventTagsField(),
    "timestamp" := Plain(DateTimeField, false, true),
    "notify" := Plain(BoolField, false, true)], Raise)
  const EventDeleteSlugSchema := Schema(map[
    "namespace" := ProjectNamespaceField(true),
    "feed" := FeedNameField(true, false),
    "event_id" := PikaId("event")], Raise)
  const EventDeleteMultipleBodySchema := Schema(map[
    "event_ids" := Plain(ListField(PikaIdField("event")), false, true),
    "deleteAll" := Plain(BoolField, false, true)], Raise)
  const EventDeleteMultipleSlugSchema := Schema(map[
    "namespace" := ProjectNamespaceField(true),
    "feed_name" := FeedNameField(true, false),
    "event_id" := PikaId("event")], Raise)
  const EventGetSlugSchema := Schema(map[
    "namespace" := ProjectNamespaceField(true),
    "feed_name" := FeedNameField(true, false),
    "event_id" := PikaId("event")], Raise)
  /** `default=25` / `default=0` are dump defaults: `load` never inserts them. */
  const EventGetMultipleBodySchema := Schema(map[
    "limit" := FieldSpec(IntField, false, false, [Range(Some(1), Some(100))]),
    "offset" := FieldSpec(IntField, false, false, [Range(Some(0), None)])], Raise)
  const EventGetMultipleSlugSchema :=
    Schema(map["namespace" := ProjectNamespaceField(true), "feed_name" := FeedNameField(true, false)], Raise)
  const EventPatchBodySchema := Schema(map[
    "title" := EventTitleField(false, true),
    "description" := EventDescriptionField(false, true),
    "emoji" := EmojiField(false, true),
    "tags" := EventTagsField(),
    "timestamp" := Plain(DateTimeField, false, true)], Raise)
  const EventPatchSlugSchema := Schema(map[
    "namespace" := ProjectNamespaceField(true),
    "feed_name" := FeedNameField(true, false),
    "event_id" := PikaId("event")], Raise)

  // ----- insight schemas -----

  const InsightCreateBodySchema := Schema(map[
    "title" := InsightTitleField(true, false),
    "emoji" := EmojiField(false, true),
    "value" := Plain(FloatField, false, true)], Raise)
  const InsightCreateSlugSchema := Schema(map["namespace" := ProjectNamespaceField(true)], Raise)
  const InsightDeleteSlugSchema :=
    Schema(map["namespace" := ProjectNamespaceField(true), "insight_id" := PikaId("insight")], Raise)
  const InsightGetSlugSchema :=
    Schema(map["namespace" := ProjectNamespaceField(true), "insight_id" := PikaId("insight")], Raise)
  const InsightGetMultipleBodySchema := Schema(map["namespace" := ProjectNamespaceField(true)], Raise)
  const InsightValueSchema := Schema(map[
    "set" := Plain(FloatField, false, true),
    "increment" := Plain(FloatField, false, true)], Raise)
  const InsightPatchBodySchema := Schema(map[
    "title" := InsightTitleField(false, true),
    "description" := InsightDescriptionField(false, true),
    "emoji" := EmojiField(false, true),
    "value" := Plain(NestedField(InsightValueSchema), false, true)], Raise)
  const InsightPatchSlugSchema :=
    Schema(map["namespace" := ProjectNamespaceField(true), "insight_id" := PikaId("insight")], Raise)

  // ----- API envelopes -----

  const ErrorSchema := Schema(map["code" := Plain(StrField, true, false), "message" := Plain(StrField, true, false)], Raise)
  /** `error` is neither required nor nullable. */
  const APIErrorSchema := Schema(map[
    "success" := FieldSpec(BoolField, true, false, [Equal(Bool(false))]),
    "error" := Plain(NestedField(ErrorSchema), false, false)], Raise)
  const APISuccessSchema := Schema(map[
    "success" := FieldSpec(BoolField, true, false, [Equal(Bool(true))]),
    "data" := Plain(DictField, true, false)], Raise)

  // ----- API response schemas (unknown keys dropped) -----

  const FeedSchema := Schema(map[
    "id" := PikaId("feed"),
    "project_id" := PikaId("project"),
    "name" := FeedNameField(true, false),
    "description" := FeedDescriptionField(true, true),
    "emoji" := EmojiField(true, true)], Exclude)
  const MemberSchema := Schema(map[
    "id" := PikaId("user"),
    "username" := Plain(StrField, true, false),
    "icon" := Plain(StrField, true, true)], Exclude)
  const ProjectSchema := Schema(map[
    "id" := PikaId("project"),
    "namespace" := ProjectNamespaceField(true),
    "name" := ProjectNameField(true),
    "flags" := Plain(IntField, true, false),
    "icon" := Plain(StrField, true, true),
    "feeds" := Plain(ListField(NestedField(FeedSchema)), true, false),
    "members" := Plain(ListField(NestedField(MemberSchema)), true, false)], Exclude)
  const EventSchema := Schema(map[
    "id" := PikaId("event"),
    "project_id" := PikaId("project"),
    "feed_id" := PikaId("feed"),
    "title" := EventTitleField(true, false),
    "description" := EventDescriptionField(true, true),
    "emoji" := EmojiField(true, true)], Exclude)
  const InsightSchema := Schema(map[
    "id" := PikaId("insight"),
    "title" := InsightTitleField(true, false),
    "description" := InsightDescriptionField(true, true),
    "value" := Plain(FloatField, true, false),
    "emoji" := EmojiField(true, true),
    "updated_at" := Plain(DateTimeField, true, true),
    "created_at" := Plain(DateTimeField, true, false)], Exclude)
}
