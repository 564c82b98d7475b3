/**
 * What `Schema.load` guarantees, in general and for the schemas of
 * lawg/schemas.py in particular.
 */
module SchemaFacts {
  import opened Wrappers
  import opened Json
  import opened Exceptions
  import opened Schemas

  /** A field entry of `m` that `s` accepts: present and valid, or absent
      and optional. */
  predicate FieldOk(s: Schema, m: map<string, Value>, k: string)
    requires k in s.fields
  {
    if k in m then FieldResult(s.fields[k], m[k]).Ok? else !s.fields[k].required
  }

  /** `load` succeeds exactly when every declared field is acceptable and,
      under RAISE, no key is undeclared. */
  lemma LoadAccepts(s: Schema, m: map<string, Value>)
    ensures Load(s, Obj(m)).Ok? <==>
      (forall k | k in s.fields :: FieldOk(s, m, k)) && (s.unknown == Raise ==> m.Keys <= s.fields.Keys)
  {
    var good := (forall k | k in s.fields :: FieldOk(s, m, k)) && (s.unknown == Raise ==> m.Keys <= s.fields.Keys);
    if good {
      forall k | k in s.fields
        ensures !(if k in m then FieldResult(s.fields[k], m[k]).Err? else s.fields[k].required)
      {
        assert FieldOk(s, m, k);
      }
      assert Failed(s, m) == {};
    } else if !(forall k | k in s.fields :: FieldOk(s, m, k)) {
      var k :| k in s.fields && !FieldOk(s, m, k);
      assert k in Failed(s, m);
    } else {
      var k :| k in m && k !in s.fields;
      assert k in Failed(s, m);
    }
  }

  /** A declared field of a loaded dict is present in the input exactly
      when it is in the result, where it holds the field's own result. */
  lemma LoadedField(s: Schema, m: map<string, Value>, k: string)
    requires Load(s, Obj(m)).Ok? && k in s.fields
    ensures k in Load(s, Obj(m)).value <==> k in m
    ensures k in m ==> FieldResult(s.fields[k], m[k]) == Ok(Load(s, Obj(m)).value[k])
    ensures s.fields[k].required ==> k in m
  {
    LoadAccepts(s, m);
    assert FieldOk(s, m, k);
  }

  /** A one-rule or two-rule validator list passes exactly when its rules do. */
  lemma PassesSmall(rules: seq<Validator>, v: Value)
    requires 1 <= |rules| <= 2
    ensures Passes(rules, v) <==> Check(rules[0], v) && (|rules| == 2 ==> Check(rules[1], v))
  {
    if Check(rules[0], v) && (|rules| == 2 ==> Check(rules[1], v)) {
      forall i | 0 <= i < |rules| ensures Check(rules[i], v) {
        if i == 0 { } else { }
      }
    }
  }

  /** A non-nullable string field loads only strings. */
  lemma StrFieldLoadsStr(spec: FieldSpec, v: Value)
    requires spec.kind.StrField? || spec.kind.PikaIdField?
    requires !spec.allowNone && FieldResult(spec, v).Ok?
    ensures v.Str? && FieldResult(spec, v).value == v
  {
  }

  /** `None` loads unchanged into every nullable field. */
  lemma NullLoads(spec: FieldSpec)
    requires spec.allowNone
    ensures FieldResult(spec, Null) == Ok(Null)
  {
  }

  /** A loaded dict holds the declared keys of the input; under RAISE that
      is every key of the input. */
  lemma LoadKeys(s: Schema, m: map<string, Value>)
    requires Load(s, Obj(m)).Ok?
    ensures Load(s, Obj(m)).value.Keys == m.Keys * s.fields.Keys
    ensures s.unknown == Raise ==> Load(s, Obj(m)).value.Keys == m.Keys
  {
    LoadAccepts(s, m);
    var l := Load(s, Obj(m)).value;
    forall k | k in m && k in s.fields ensures k in l {
      assert FieldOk(s, m, k);
    }
  }

  /** Under RAISE an undeclared key makes `load` fail, naming that key. */
  lemma LoadRejectsUnknown(s: Schema, m: map<string, Value>, k: string)
    requires s.unknown == Raise && k in m && k !in s.fields
    ensures Load(s, Obj(m)).Err?
    ensures Load(s, Obj(m)).error == Validation(Failed(s, m)) && k in Failed(s, m)
  {
    assert k in m.Keys - s.fields.Keys;
  }

  /** A missing required field makes `load` fail, naming that field. */
  lemma LoadRejectsMissing(s: Schema, m: map<string, Value>, k: string)
    requires k in s.fields && s.fields[k].required && k !in m
    ensures Load(s, Obj(m)).Err?
    ensures Load(s, Obj(m)).error == Validation(Failed(s, m)) && k in Failed(s, m)
  {
  }

  /** A present field that its spec rejects makes `load` fail, naming it. */
  lemma LoadRejectsField(s: Schema, m: map<string, Value>, k: string)
    requires k in s.fields && k in m && FieldResult(s.fields[k], m[k]).Err?
    ensures Load(s, Obj(m)).Err?
    ensures Load(s, Obj(m)).error == Validation(Failed(s, m)) && k in Failed(s, m)
  {
  }

  /** Under EXCLUDE, undeclared keys change nothing: they are dropped. */
  lemma ExcludeDropsUnknown(s: Schema, m: map<string, Value>, extra: map<string, Value>)
    requires s.unknown == Exclude && extra.Keys !! s.fields.Keys
    ensures Load(s, Obj(m + extra)) == Load(s, Obj(m))
  {
    var m' := m + extra;
    forall k | k in s.fields ensures (k in m' <==> k in m) && (k in m ==> m'[k] == m[k]) {
      assert k !in extra;
    }
    assert Failed(s, m') == Failed(s, m);
    assert Loaded(s, m') == Loaded(s, m);
  }

  /** An empty dict loads to an empty dict exactly when no field is required. */
  lemma LoadEmpty(s: Schema)
    ensures Load(s, Obj(map[])).Ok? <==> forall k | k in s.fields :: !s.fields[k].required
    ensures Load(s, Obj(map[])).Ok? ==> Load(s, Obj(map[])).value == map[]
  {
    LoadAccepts(s, map[]);
  }

  /** A schema whose fields are all non-nullable strings or ids loads only
      strings: what slug substitution relies on. */
  lemma LoadedStrings(s: Schema, m: map<string, Value>)
    requires forall k | k in s.fields :: (s.fields[k].kind.StrField? || s.fields[k].kind.PikaIdField?) && !s.fields[k].allowNone
    requires Load(s, Obj(m)).Ok?
    ensures forall k | k in Load(s, Obj(m)).value :: Load(s, Obj(m)).value[k].Str?
  {
    var l := Load(s, Obj(m)).value;
    forall k | k in l ensures l[k].Str? {
      assert k in s.fields;
      LoadedField(s, m, k);
      StrFieldLoadsStr(s.fields[k], m[k]);
    }
  }

  // ----- field rules -----

  /** A length-bounded string field: accepts `None` only when nullable, and
      a string exactly when its length is within the inclusive bounds. */
  lemma LengthFieldAccepts(min: nat, max: nat, required: bool, allowNone: bool, v: Value)
    ensures FieldResult(LengthField(min, max, required, allowNone), v).Ok? <==>
      (v == Null && allowNone) || (v.Str? && min <= |v.s| <= max)
    ensures FieldResult(LengthField(min, max, required, allowNone), v).Ok? ==>
      FieldResult(LengthField(min, max, required, allowNone), v).value == v
  {
    PassesSmall([Length(min, max)], v);
  }

  /** The namespace field accepts a string iff it has 1 to 32 characters,
      each in `a-z`, `0-9`, `_` or `-`. */
  lemma NamespaceFieldAccepts(v: Value)
    ensures FieldResult(ProjectNamespaceField(true), v).Ok? <==>
      v.Str? && 1 <= |v.s| <= 32 && AllNamespaceChars(v.s)
  {
    PassesSmall([Length(1, 32), NamespacePattern], v);
  }

  /** An id field accepts exactly the values `PikaId._validate` accepts. */
  lemma PikaIdFieldAccepts(prefix: string, v: Value)
    ensures FieldResult(PikaId(prefix), v).Ok? <==> ValidatePikaId(v, prefix).Ok?
    ensures FieldResult(PikaId(prefix), v).Ok? ==> FieldResult(PikaId(prefix), v).value == v
  {
  }

  /** The tag map: `None`, or a dict whose keys have 1 to 175 characters
      and whose values are strings, numbers or booleans. */
  lemma TagsFieldAccepts(v: Value)
    ensures FieldResult(EventTagsField(), v).Ok? <==>
      v == Null || (v.Obj? && forall k | k in v.fields :: 1 <= |k| <= 175 && TagScalar(v.fields[k]))
  {
  }

  // ----- the schemas -----

  /** Pagination: an integer `limit` loads iff it is in 1..100, an integer
      `offset` iff it is at least 0, neither may be `None`, and an absent
      one stays absent (the 25/0 defaults apply only on dump). */
  lemma PaginationRules(limit: int, offset: int)
    ensures Load(EventGetMultipleBodySchema, Obj(map["limit" := Int(limit)])).Ok? <==> 1 <= limit <= 100
    ensures Load(EventGetMultipleBodySchema, Obj(map["offset" := Int(offset)])).Ok? <==> 0 <= offset
    ensures Load(EventGetMultipleBodySchema, Obj(map["limit" := Null])).Err?
    ensures Load(EventGetMultipleBodySchema, Obj(map["offset" := Null])).Err?
    ensures Load(EventGetMultipleBodySchema, Obj(map[])) == Ok(map[])
  {
    LimitRule(limit);
    OffsetRule(offset);
    LoadEmpty(EventGetMultipleBodySchema);
  }

  /** The `limit` half of `PaginationRules`. */
  lemma LimitRule(limit: int)
    ensures Load(EventGetMultipleBodySchema, Obj(map["limit" := Int(limit)])).Ok? <==> 1 <= limit <= 100
    ensures Load(EventGetMultipleBodySchema, Obj(map["limit" := Null])).Err?
  {
    var s := EventGetMultipleBodySchema;
    var lim := map["limit" := Int(limit)];
    PassesSmall(s.fields["limit"].validators, Int(limit));
    LoadAccepts(s, lim);
    assert FieldOk(s, lim, "limit") <==> 1 <= limit <= 100;
    assert FieldOk(s, lim, "offset");
    LoadRejectsField(s, map["limit" := Null], "limit");
  }

  /** The `offset` half of `PaginationRules`. */
  lemma OffsetRule(offset: int)
    ensures Load(EventGetMultipleBodySchema, Obj(map["offset" := Int(offset)])).Ok? <==> 0 <= offset
    ensures Load(EventGetMultipleBodySchema, Obj(map["offset" := Null])).Err?
  {
    var s := EventGetMultipleBodySchema;
    var off := map["offset" := Int(offset)];
    PassesSmall(s.fields["offset"].validators, Int(offset));
    LoadAccepts(s, off);
    assert FieldOk(s, off, "offset") <==> 0 <= offset;
    assert FieldOk(s, off, "limit");
    LoadRejectsField(s, map["offset" := Null], "offset");
  }

  /** A loaded dict holds every required field, and a required non-nullable
      string field as a string. */
  lemma RequiredStrLoaded(s: Schema, m: map<string, Value>, k: string)
    requires Load(s, Obj(m)).Ok? && k in s.fields && s.fields[k].required
    requires s.fields[k].kind.StrField? && !s.fields[k].allowNone
    ensures k in m && m[k].Str?
    ensures k in Load(s, Obj(m)).value && Load(s, Obj(m)).value[k] == m[k]
  {
    LoadedField(s, m, k);
    StrFieldLoadsStr(s.fields[k], m[k]);
  }

  /** The project create body needs both its name and its namespace. */
  lemma ProjectCreateNeedsNameAndNamespace(m: map<string, Value>)
    requires Load(ProjectCreateBodySchema, Obj(m)).Ok?
    ensures "name" in m && m["name"].Str? && "namespace" in m && m["namespace"].Str?
  {
    RequiredStrLoaded(ProjectCreateBodySchema, m, "name");
    RequiredStrLoaded(ProjectCreateBodySchema, m, "namespace");
  }

  /** Feed, event and insight create bodies need their name or title. */
  lemma CreateBodiesNeedTitles(m: map<string, Value>)
    ensures Load(FeedCreateBodySchema, Obj(m)).Ok? ==> "name" in m && m["name"].Str?
    ensures Load(EventCreateBodySchema, Obj(m)).Ok? ==> "title" in m && m["title"].Str?
    ensures Load(InsightCreateBodySchema, Obj(m)).Ok? ==> "title" in m && m["title"].Str?
  {
    if Load(FeedCreateBodySchema, Obj(m)).Ok? {
      RequiredStrLoaded(FeedCreateBodySchema, m, "name");
    }
    if Load(EventCreateBodySchema, Obj(m)).Ok? {
      RequiredStrLoaded(EventCreateBodySchema, m, "title");
    }
    if Load(InsightCreateBodySchema, Obj(m)).Ok? {
      RequiredStrLoaded(InsightCreateBodySchema, m, "title");
    }
  }

  /** A dict of declared fields that holds every required field, each of
      whose values its field accepts unchanged, loads unchanged. */
  lemma LoadExact(s: Schema, m: map<string, Value>)
    requires m.Keys <= s.fields.Keys
    requires forall k | k in s.fields && s.fields[k].required :: k in m
    requires forall k | k in m :: FieldResult(s.fields[k], m[k]) == Ok(m[k])
    ensures Load(s, Obj(m)) == Ok(m)
  {
    forall k | k in s.fields ensures FieldOk(s, m, k) { }
    LoadAccepts(s, m);
    LoadKeys(s, m);
    var l := Load(s, Obj(m)).value;
    forall k | k in m ensures l[k] == m[k] {
      LoadedField(s, m, k);
    }
    assert l == m;
  }

  /** In a schema whose fields are all optional and nullable, any subset of
      its fields set to `None` loads unchanged. */
  lemma NullsLoad(s: Schema, m: map<string, Value>)
    requires forall k | k in s.fields :: !s.fields[k].required && s.fields[k].allowNone
    requires m.Keys <= s.fields.Keys && forall k | k in m :: m[k] == Null
    ensures Load(s, Obj(m)) == Ok(m)
  {
    forall k | k in s.fields ensures FieldOk(s, m, k) {
      NullLoads(s.fields[k]);
    }
    LoadAccepts(s, m);
    LoadKeys(s, m);
    var l := Load(s, Obj(m)).value;
    assert l.Keys == m.Keys;
    forall k | k in m ensures l[k] == m[k] {
      LoadedField(s, m, k);
      NullLoads(s.fields[k]);
    }
    assert l == m;
  }

  /** Patch bodies make every field optional and nullable: any subset of
      their fields set to `None` loads unchanged. */
  lemma PatchBodiesAcceptNulls(m: map<string, Value>)
    requires forall k | k in m :: m[k] == Null
    ensures m.Keys <= FeedPatchBodySchema.fields.Keys ==> Load(FeedPatchBodySchema, Obj(m)) == Ok(m)
    ensures m.Keys <= EventPatchBodySchema.fields.Keys ==> Load(EventPatchBodySchema, Obj(m)) == Ok(m)
    ensures m.Keys <= InsightPatchBodySchema.fields.Keys ==> Load(InsightPatchBodySchema, Obj(m)) == Ok(m)
  {
    if m.Keys <= FeedPatchBodySchema.fields.Keys {
      AllOptionalNullable(FeedPatchBodySchema);
      NullsLoad(FeedPatchBodySchema, m);
    }
    if m.Keys <= EventPatchBodySchema.fields.Keys {
      AllOptionalNullable(EventPatchBodySchema);
      NullsLoad(EventPatchBodySchema, m);
    }
    if m.Keys <= InsightPatchBodySchema.fields.Keys {
      AllOptionalNullable(InsightPatchBodySchema);
      NullsLoad(InsightPatchBodySchema, m);
    }
  }

  /** The three patch bodies declare only optional, nullable fields. */
  lemma AllOptionalNullable(s: Schema)
    requires s in {FeedPatchBodySchema, EventPatchBodySchema, InsightPatchBodySchema}
    ensures forall k | k in s.fields :: !s.fields[k].required && s.fields[k].allowNone
  {
  }

  /** The nested insight value takes `set` and `increment` together: no
      exclusivity check. */
  lemma InsightValueTakesBoth(a: real, b: real)
    ensures Load(InsightValueSchema, Obj(map["set" := Num(a), "increment" := Num(b)]))
         == Ok(map["set" := Num(a), "increment" := Num(b)])
  {
    var s := InsightValueSchema;
    var m := map["set" := Num(a), "increment" := Num(b)];
    assert FieldOk(s, m, "set") && FieldOk(s, m, "increment");
    LoadAccepts(s, m);
    LoadKeys(s, m);
    LoadedField(s, m, "set");
    LoadedField(s, m, "increment");
    assert Load(s, Obj(m)).value == m;
  }

  /** The error envelope needs a `success` that reads as false and no key
      but `success` and `error`, which may be absent. */
  lemma ErrorEnvelopeRules(m: map<string, Value>)
    ensures Load(APIErrorSchema, Obj(m)).Ok? ==>
      "success" in m && AsBool(m["success"]) == Some(false) && m.Keys <= {"success", "error"}
    ensures Load(APIErrorSchema, Obj(map["success" := Bool(false)])) == Ok(map["success" := Bool(false)])
  {
    var s := APIErrorSchema;
    if Load(s, Obj(m)).Ok? {
      LoadedField(s, m, "success");
      PassesSmall(s.fields["success"].validators, Bool(AsBool(m["success"]).value));
      LoadKeys(s, m);
    }
    var f := map["success" := Bool(false)];
    PassesSmall(s.fields["success"].validators, Bool(false));
    assert FieldOk(s, f, "success") && FieldOk(s, f, "error");
    LoadAccepts(s, f);
    LoadKeys(s, f);
    LoadedField(s, f, "success");
    assert Load(s, Obj(f)).value == f;
  }

  /** The success envelope needs a `success` that reads as true and a dict
      `data`, which it passes through. */
  lemma SuccessEnvelopeRules(m: map<string, Value>)
    requires Load(APISuccessSchema, Obj(m)).Ok?
    ensures "success" in m && AsBool(m["success"]) == Some(true)
    ensures "data" in m && m["data"].Obj? && Load(APISuccessSchema, Obj(m)).value["data"] == m["data"]
  {
    var s := APISuccessSchema;
    LoadedField(s, m, "success");
    PassesSmall(s.fields["success"].validators, Bool(AsBool(m["success"]).value));
    LoadedField(s, m, "data");
  }
}
