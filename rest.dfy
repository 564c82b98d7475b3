/**
 * The request builder and response normaliser shared by every client
 * (lawg/base/rest.py): URL templates and their slug substitution, body
 * preparation, and the mapping of a response to data or to a typed error.
 */
module Rest {
  import opened Wrappers
  import opened Json
  import opened Exceptions
  import opened Schemas
  import opened SchemaFacts

  // ----- URL templates -----

  /** A piece of a `str.format` template: literal text or a `{name}` slot. */
  datatype Segment = Lit(text: string) | Slot(name: string)

  type Template = seq<Segment>

  predicate BraceFree(s: string) {
    forall i :: 0 <= i < |s| ==> s[i] != '{' && s[i] != '}'
  }

  /** Literals hold no braces and slot names are non-empty and brace-free,
      so the template text parses back to the same segments. */
  predicate WellFormed(t: Template) {
    forall i | 0 <= i < |t| ::
      (t[i].Lit? ==> BraceFree(t[i].text)) && (t[i].Slot? ==> t[i].name != "" && BraceFree(t[i].name))
  }

  /** The template as the source spells it. */
  function TemplateText(t: Template): string {
    if t == [] then ""
    else
      (match t[0]
       case Lit(x) => x
       case Slot(n) => "{" + n + "}") + TemplateText(t[1..])
  }

  /** The names of the template's slots. */
  function SlotNames(t: Template): set<string> {
    if t == [] then {}
    else (if t[0].Slot? then {t[0].name} else {}) + SlotNames(t[1..])
  }

  /** The API base (the `LAWG_DEV_API` override is not modelled). */
  const API := "https://api.lawg.dev"
  const API_V1 := API + "/v1"
  const API_V1_PROJECTS := API_V1 + "/projects"

  /** `{API_V1_PROJECTS}/{namespace}` followed by `rest`. */
  function UnderProject(rest: Template): Template {
    [Lit(API_V1_PROJECTS + "/"), Slot("namespace")] + rest
  }

  const API_CREATE_PROJECT: Template := [Lit(API_V1_PROJECTS)]
  const API_GET_PROJECT: Template := UnderProject([])
  const API_EDIT_PROJECT: Template := UnderProject([])
  const API_DELETE_PROJECT: Template := UnderProject([])
  const API_INVITE_MEMBER: Template := UnderProject([Lit("/invites/"), Slot("username")])
  const API_REVOKE_INVITE: Template := UnderProject([Lit("/invites/"), Slot("username")])
  const API_MEMBERS: Template := UnderProject([Lit("/members/"), Slot("username")])
  const API_CREATE_FEED: Template := UnderProject([Lit("/feeds")])
  const API_EDIT_FEED: Template := UnderProject([Lit("/feeds/"), Slot("feed")])
  const API_DELETE_FEED: Template := UnderProject([Lit("/feeds/"), Slot("feed")])
  const API_CREATE_EVENT: Template := UnderProject([Lit("/feeds/"), Slot("feed"), Lit("/events")])
  const API_GET_EVENT: Template :=
    UnderProject([Lit("/feeds/"), Slot("feed"), Lit("/events/"), Slot("event_id")])
  const API_GET_EVENTS: Template := UnderProject([Lit("/feeds/"), Slot("feed"), Lit("/events")])
  const API_EDIT_EVENT: Template :=
    UnderProject([Lit("/feeds/"), Slot("feed"), Lit("/events/"), Slot("event_id")])
  const API_DELETE_EVENT: Template :=
    UnderProject([Lit("/feeds/"), Slot("feed"), Lit("/events/"), Slot("event_id")])
  const API_CREATE_INSIGHT: Template := UnderProject([Lit("/insights")])
  const API_GET_INSIGHT: Template := UnderProject([Lit("/insights/"), Slot("insight_id")])
  const API_GET_INSIGHTS: Template := UnderProject([Lit("/insights")])
  const API_EDIT_INSIGHT: Template := UnderProject([Lit("/insights/"), Slot("insight_id")])
  const API_DELETE_INSIGHT: Template := UnderProject([Lit("/insights/"), Slot("insight_id")])

  /** `format(v)` for a slug value; only strings are rendered. */
  function Render(v: Value): string {
    if v.Str? then v.s else ""
  }

  /** `template.format(**slugs)`: slots are filled left to right and the
      first slot without a value raises `KeyError`; unused values are
      ignored. */
  function Format(t: Template, slugs: map<string, Value>): (r: Result<string, Error>)
    ensures r.Ok? <==> SlotNames(t) <= slugs.Keys
    ensures r.Err? ==> r.error.Key? && r.error.key in SlotNames(t) && r.error.key !in slugs
  {
    if t == [] then Ok("")
    else
      var head :- (match t[0]
                   case Lit(x) => Ok(x)
                   case Slot(n) => if n in slugs then Ok(Render(slugs[n])) else Err(Key(n)));
      var rest :- Format(t[1..], slugs);
      Ok(head + rest)
  }

  /** Only the values of the template's own slots matter: two slug maps
      that agree on them format alike. */
  lemma {:induction false} FormatUsesOnlySlots(t: Template, a: map<string, Value>, b: map<string, Value>)
    requires forall n | n in SlotNames(t) :: (n in a <==> n in b) && (n in a ==> a[n] == b[n])
    ensures Format(t, a) == Format(t, b)
  {
    if t != [] {
      FormatUsesOnlySlots(t[1..], a, b);
    }
  }

  /** Formatting with every slot mapped to its own `{name}` gives back the
      template text. */
  lemma {:induction false} FormatIdentity(t: Template, slugs: map<string, Value>)
    requires forall n | n in SlotNames(t) :: n in slugs && slugs[n] == Str("{" + n + "}")
    ensures Format(t, slugs) == Ok(TemplateText(t))
  {
    if t != [] {
      FormatIdentity(t[1..], slugs);
    }
  }

  /** With brace-free slug values, a well-formed template leaves no braces
      behind: every placeholder is replaced. */
  lemma {:induction false} FormatResolvesAll(t: Template, slugs: map<string, Value>)
    requires WellFormed(t) && Format(t, slugs).Ok?
    requires forall n | n in slugs :: BraceFree(Render(slugs[n]))
    ensures BraceFree(Format(t, slugs).value)
  {
    if t != [] {
      assert WellFormed(t[1..]) by {
        forall i | 0 <= i < |t[1..]| ensures t[1..][i] == t[i + 1] { }
      }
      FormatResolvesAll(t[1..], slugs);
      var head := match t[0] case Lit(x) => x case Slot(n) => Render(slugs[n]);
      assert BraceFree(head);
      var rest := Format(t[1..], slugs).value;
      assert Format(t, slugs).value == head + rest;
      forall i | 0 <= i < |head + rest| ensures (head + rest)[i] != '{' && (head + rest)[i] != '}' {
        if i < |head| { assert (head + rest)[i] == head[i]; } else { assert (head + rest)[i] == rest[i - |head|]; }
      }
    }
  }

  /** Formatting distributes over joined templates. */
  lemma {:induction false} FormatAppend(a: Template, b: Template, slugs: map<string, Value>)
    requires Format(a, slugs).Ok? && Format(b, slugs).Ok?
    ensures Format(a + b, slugs) == Ok(Format(a, slugs).value + Format(b, slugs).value)
  {
    if a == [] {
      assert a + b == b;
      assert "" + Format(b, slugs).value == Format(b, slugs).value;
    } else {
      assert (a + b)[0] == a[0];
      assert (a + b)[1..] == a[1..] + b;
      FormatAppend(a[1..], b, slugs);
      var head := match a[0] case Lit(x) => x case Slot(n) => Render(slugs[n]);
      var x, y := Format(a[1..], slugs).value, Format(b, slugs).value;
      assert Format(a, slugs).value == head + x;
      assert Format(a + b, slugs).value == head + (x + y);
      assert head + (x + y) == (head + x) + y;
    }
  }

  /** A URL under a project: the projects base, `/`, the namespace, then
      the rest of the template. */
  lemma FormatUnderProject(rest: Template, slugs: map<string, Value>, namespace: string)
    requires "namespace" in slugs && slugs["namespace"] == Str(namespace) && Format(rest, slugs).Ok?
    ensures Format(UnderProject(rest), slugs) == Ok(API_V1_PROJECTS + "/" + namespace + Format(rest, slugs).value)
  {
    var head := [Lit(API_V1_PROJECTS + "/"), Slot("namespace")];
    assert head[1..] == [Slot("namespace")];
    assert Format([Slot("namespace")], slugs) == Ok(namespace + "");
    assert Format(head, slugs) == Ok((API_V1_PROJECTS + "/") + (namespace + ""));
    assert namespace + "" == namespace;
    FormatAppend(head, rest, slugs);
  }

  /** Spelling and slots distribute over joined templates. */
  lemma {:induction false} TextAppend(a: Template, b: Template)
    ensures TemplateText(a + b) == TemplateText(a) + TemplateText(b)
    ensures SlotNames(a + b) == SlotNames(a) + SlotNames(b)
  {
    if a == [] {
      assert a + b == b;
    } else {
      assert (a + b)[0] == a[0];
      assert (a + b)[1..] == a[1..] + b;
      TextAppend(a[1..], b);
    }
  }

  /** A literal followed by a slot spells `lit{name}` and has that one slot. */
  lemma PieceSpelled(lit: string, name: string)
    ensures TemplateText([Lit(lit)]) == lit && SlotNames([Lit(lit)]) == {}
    ensures TemplateText([Lit(lit), Slot(name)]) == lit + "{" + name + "}"
    ensures SlotNames([Lit(lit), Slot(name)]) == {name}
  {
    assert [Lit(lit)][1..] == [];
    assert [Lit(lit), Slot(name)][1..] == [Slot(name)];
    assert [Slot(name)][1..] == [];
    assert lit + "" == lit;
    assert "{" + name + "}" + "" == "{" + name + "}";
  }

  /** Two literal-and-slot pieces spelled one after the other. */
  lemma PiecesSpelled(lit1: string, name1: string, lit2: string, name2: string)
    ensures TemplateText([Lit(lit1), Slot(name1), Lit(lit2), Slot(name2)])
            == lit1 + "{" + name1 + "}" + lit2 + "{" + name2 + "}"
    ensures SlotNames([Lit(lit1), Slot(name1), Lit(lit2), Slot(name2)]) == {name1, name2}
    ensures TemplateText([Lit(lit1), Slot(name1), Lit(lit2)]) == lit1 + "{" + name1 + "}" + lit2
    ensures SlotNames([Lit(lit1), Slot(name1), Lit(lit2)]) == {name1}
  {
    var a, b := [Lit(lit1), Slot(name1)], [Lit(lit2), Slot(name2)];
    assert a + b == [Lit(lit1), Slot(name1), Lit(lit2), Slot(name2)];
    assert a + [Lit(lit2)] == [Lit(lit1), Slot(name1), Lit(lit2)];
    PieceSpelled(lit1, name1);
    PieceSpelled(lit2, name2);
    TextAppend(a, b);
    TextAppend(a, [Lit(lit2)]);
  }

  /** A template under a project spells the projects base, `/{namespace}`,
      then the rest, and has the `namespace` slot besides the rest's. */
  lemma UnderProjectSpelled(rest: Template)
    ensures TemplateText(UnderProject(rest)) == API_V1_PROJECTS + "/{namespace}" + TemplateText(rest)
    ensures SlotNames(UnderProject(rest)) == {"namespace"} + SlotNames(rest)
  {
    var t := UnderProject(rest);
    assert t[1..] == [Slot("namespace")] + rest;
    assert t[1..][1..] == rest;
  }

  /** The project URL templates as the source spells them, and their slots. */
  lemma ProjectTemplatesSpelled()
    ensures TemplateText(API_CREATE_PROJECT) == API_V1_PROJECTS && SlotNames(API_CREATE_PROJECT) == {}
    ensures TemplateText(API_GET_PROJECT) == API_V1_PROJECTS + "/{namespace}"
    ensures SlotNames(API_GET_PROJECT) == {"namespace"}
  {
    PieceSpelled(API_V1_PROJECTS, "");
    UnderProjectSpelled([]);
    assert API_V1_PROJECTS + "/{namespace}" + "" == API_V1_PROJECTS + "/{namespace}";
  }

  /** The feed URL templates as the source spells them, and their slots. */
  lemma FeedTemplatesSpelled()
    ensures TemplateText(API_CREATE_FEED) == API_V1_PROJECTS + "/{namespace}/feeds"
    ensures SlotNames(API_CREATE_FEED) == {"namespace"}
    ensures TemplateText(API_EDIT_FEED) == API_V1_PROJECTS + "/{namespace}/feeds/{feed}"
    ensures SlotNames(API_EDIT_FEED) == {"namespace", "feed"}
  {
    UnderProjectSpelled([Lit("/feeds")]);
    UnderProjectSpelled([Lit("/feeds/"), Slot("feed")]);
    PieceSpelled("/feeds", "");
    PieceSpelled("/feeds/", "feed");
  }

  /** The event-list URL template as the source spells it, and its slots. */
  lemma EventsTemplateSpelled()
    ensures TemplateText(API_CREATE_EVENT) == API_V1_PROJECTS + "/{namespace}/feeds/{feed}/events"
    ensures SlotNames(API_CREATE_EVENT) == {"namespace", "feed"}
  {
    UnderProjectSpelled([Lit("/feeds/"), Slot("feed"), Lit("/events")]);
    PiecesSpelled("/feeds/", "feed", "/events", "");
  }

  /** The single-event URL template as the source spells it, and its slots. */
  lemma EventTemplateSpelled()
    ensures TemplateText(API_GET_EVENT) == API_V1_PROJECTS + "/{namespace}/feeds/{feed}/events/{event_id}"
    ensures SlotNames(API_GET_EVENT) == {"namespace", "feed", "event_id"}
  {
    UnderProjectSpelled([Lit("/feeds/"), Slot("feed"), Lit("/events/"), Slot("event_id")]);
    PiecesSpelled("/feeds/", "feed", "/events/", "event_id");
    EventTailSpelled();
  }

  /** The tail of the single-event template, spelled out. */
  lemma EventTailSpelled()
    ensures "/feeds/" + "{" + "feed" + "}" + "/events/" + "{" + "event_id" + "}" == "/feeds/{feed}/events/{event_id}"
    ensures API_V1_PROJECTS + "/{namespace}" + "/feeds/{feed}/events/{event_id}"
         == API_V1_PROJECTS + "/{namespace}/feeds/{feed}/events/{event_id}"
  {
  }

  /** The insight-list URL template as the source spells it, and its slot. */
  lemma InsightsTemplateSpelled()
    ensures TemplateText(API_CREATE_INSIGHT) == API_V1_PROJECTS + "/{namespace}/insights"
    ensures SlotNames(API_CREATE_INSIGHT) == {"namespace"}
  {
    UnderProjectSpelled([Lit("/insights")]);
    PieceSpelled("/insights", "");
    assert API_V1_PROJECTS + "/{namespace}" + "/insights" == API_V1_PROJECTS + "/{namespace}/insights";
  }

  /** The single-insight URL template as the source spells it, and its slots. */
  lemma InsightTemplateSpelled()
    ensures TemplateText(API_EDIT_INSIGHT) == API_V1_PROJECTS + "/{namespace}/insights/{insight_id}"
    ensures SlotNames(API_EDIT_INSIGHT) == {"namespace", "insight_id"}
  {
    UnderProjectSpelled([Lit("/insights/"), Slot("insight_id")]);
    PieceSpelled("/insights/", "insight_id");
    InsightTailSpelled();
  }

  /** The tail of the single-insight template, spelled out. */
  lemma InsightTailSpelled()
    ensures "/insights/" + "{" + "insight_id" + "}" == "/insights/{insight_id}"
    ensures API_V1_PROJECTS + "/{namespace}" + "/insights/{insight_id}"
         == API_V1_PROJECTS + "/{namespace}/insights/{insight_id}"
  {
  }

  /** Formatting a template of one literal, or of a literal and a slot. */
  lemma FormatLitSlot(lit: string, name: string, slugs: map<string, Value>)
    ensures Format([Lit(lit)], slugs) == Ok(lit)
    ensures name in slugs ==> Format([Lit(lit), Slot(name)], slugs) == Ok(lit + Render(slugs[name]))
  {
    assert Format([Lit(lit)], slugs) == Ok(lit + "");
    assert lit + "" == lit;
    if name in slugs {
      assert [Lit(lit), Slot(name)][1..] == [Slot(name)];
      assert Format([Slot(name)], slugs) == Ok(Render(slugs[name]) + "");
      assert Render(slugs[name]) + "" == Render(slugs[name]);
    }
  }

  // ----- prepare_body -----

  /** `DataWithSchema` for a body: entries may be the `UNDEFINED` sentinel. */
  datatype BodySpec = BodySpec(data: map<string, Field>, schema: Schema)

  /** `DataWithSchema` for slugs. */
  datatype SlugSpec = SlugSpec(data: map<string, Value>, schema: Schema)

  /** The body without its `UNDEFINED` entries. */
  function Strip(m: map<string, Field>): (r: map<string, Value>)
    ensures forall k :: k in r <==> k in m && m[k].Present?
    ensures forall k | k in r :: Present(r[k]) == m[k]
  {
    map k | k in m && m[k].Present? :: m[k].value
  }

  /** Every value of a plain dict as a real entry. */
  function Lift(m: map<string, Value>): (r: map<string, Field>)
    ensures r.Keys == m.Keys && forall k | k in r :: r[k] == Present(m[k])
  {
    map k | k in m :: Present(m[k])
  }

  /** Lifting commutes with adding one entry. */
  lemma LiftUpdate(m: map<string, Value>, k: string, v: Value)
    ensures Lift(m[k := v]) == Lift(m)[k := Present(v)]
  {
  }

  /** Stripping undoes lifting, and stripping twice is stripping once. */
  lemma StripLift(d: map<string, Value>, m: map<string, Field>)
    ensures Strip(Lift(d)) == d
    ensures Strip(Lift(Strip(m))) == Strip(m)
  {
    assert Strip(Lift(d)).Keys == d.Keys;
    assert Strip(Lift(Strip(m))).Keys == Strip(m).Keys;
  }

  /** Lifting undoes stripping exactly when nothing was `UNDEFINED`. */
  lemma LiftStrip(m: map<string, Field>)
    ensures Lift(Strip(m)) == m <==> forall k | k in m :: m[k].Present?
  {
    if forall k | k in m :: m[k].Present? {
      assert Lift(Strip(m)).Keys == m.Keys;
    } else {
      var k :| k in m && !m[k].Present?;
      assert k !in Lift(Strip(m));
    }
  }

  /** What `prepare_body` returns: `None` for no body; otherwise the
      stripped body through the schema, and an empty loaded body is an
      error. */
  function PreparedBody(body: Option<BodySpec>): (r: Result<Option<map<string, Value>>, Error>)
    ensures body.None? ==> r == Ok(None)
    ensures body.Some? && r.Ok? ==> r.value.Some? && r.value.value != map[]
    ensures body.Some? && r.Ok? ==> r.value.value.Keys <= Strip(body.value.data).Keys
    ensures r.Err? ==> r.error.Validation? || r.error == NewEmptyBody()
    ensures body.Some? && r.Err? && r.error.Validation? ==> Load(body.value.schema, Obj(Strip(body.value.data))).Err?
    ensures body.Some? ==>
      var loaded := Load(body.value.schema, Obj(Strip(body.value.data)));
      && (loaded.Err? ==> r == Err(loaded.error))
      && (loaded.Ok? && loaded.value == map[] ==> r == Err(NewEmptyBody()))
      && (loaded.Ok? && loaded.value != map[] ==> r == Ok(Some(loaded.value)))
  {
    if body.None? then Ok(None)
    else
      var stripped := Strip(body.value.data);
      match Load(body.value.schema, Obj(stripped))
      case Err(e) => Err(e)
      case Ok(loaded) =>
        LoadKeys(body.value.schema, stripped);
        if loaded == map[] then Err(NewEmptyBody()) else Ok(Some(loaded))
  }

  /** `prepare_body`: copies the entries that are not `UNDEFINED` into a
      new dict, loads it through the schema, and refuses an empty result. */
  method PrepareBody(body: Option<BodySpec>) returns (r: Result<Option<map<string, Value>>, Error>)
    ensures r == PreparedBody(body)
  {
    if body.None? {
      return Ok(None);
    }
    var original := body.value.data;
    var newBody: map<string, Value> := map[];
    var pending := original.Keys;
    while pending != {}
      invariant pending <= original.Keys
      invariant forall k :: k in newBody <==> k in original && k !in pending && original[k].Present?
      invariant forall k | k in newBody :: Present(newBody[k]) == original[k]
      decreases pending
    {
      var key :| key in pending;
      if original[key].Present? {
        newBody := newBody[key := original[key].value];
      }
      pending := pending - {key};
    }
    assert newBody == Strip(original);
    var loaded := Load(body.value.schema, Obj(newBody));
    if loaded.Err? {
      return Err(loaded.error);
    }
    if loaded.value == map[] {
      return Err(NewEmptyBody());
    }
    return Ok(Some(loaded.value));
  }

  /** A body whose every entry is `UNDEFINED`, checked by a schema with no
      required field, is refused as empty. */
  lemma AllUndefinedIsEmpty(data: map<string, Field>, schema: Schema)
    requires forall k | k in data :: data[k] == Unset
    requires forall k | k in schema.fields :: !schema.fields[k].required
    ensures PreparedBody(Some(BodySpec(data, schema))) == Err(NewEmptyBody())
  {
    assert Strip(data) == map[];
    LoadEmpty(schema);
  }

  /** Under RAISE, a prepared body holds exactly the entries that were not
      `UNDEFINED`, `None`-valued ones included. */
  lemma PreparedBodyKeepsPresent(data: map<string, Field>, schema: Schema)
    requires schema.unknown == Raise
    requires PreparedBody(Some(BodySpec(data, schema))).Ok?
    ensures PreparedBody(Some(BodySpec(data, schema))).value.value.Keys == set k | k in data && data[k].Present?
  {
    LoadKeys(schema, Strip(data));
  }

  // ----- prepare_url and prepare_request -----

  /** `prepare_url`: without slugs the template text itself; with slugs,
      the slugs loaded through their schema and substituted. */
  function PrepareUrl(url: Template, slugs: Option<SlugSpec>): (r: Result<string, Error>)
    ensures slugs.None? ==> r == Ok(TemplateText(url))
    ensures slugs.Some? && r.Ok? ==>
      Load(slugs.value.schema, Obj(slugs.value.data)).Ok?
      && SlotNames(url) <= Load(slugs.value.schema, Obj(slugs.value.data)).value.Keys
    ensures slugs.Some? && r.Err? ==> r.error.Validation? || (r.error.Key? && r.error.key in SlotNames(url))
    ensures slugs.Some? ==>
      var loaded := Load(slugs.value.schema, Obj(slugs.value.data));
      && (loaded.Err? ==> r == Err(loaded.error))
      && (loaded.Ok? ==> r == Format(url, loaded.value))
  {
    if slugs.None? then Ok(TemplateText(url))
    else
      var loaded :- Load(slugs.value.schema, Obj(slugs.value.data));
      Format(url, loaded)
  }

  /** What `prepare_request` returns: the URL and the prepared body. */
  function PreparedRequest(url: Template, body: Option<BodySpec>, slugs: Option<SlugSpec>)
    : (r: Result<(string, Option<map<string, Value>>), Error>)
    ensures r.Ok? <==> PreparedBody(body).Ok? && PrepareUrl(url, slugs).Ok?
    ensures PreparedBody(body).Err? ==> r == Err(PreparedBody(body).error)
    ensures PreparedBody(body).Ok? && PrepareUrl(url, slugs).Err? ==> r == Err(PrepareUrl(url, slugs).error)
    ensures r.Ok? ==> r.value == (PrepareUrl(url, slugs).value, PreparedBody(body).value)
  {
    var b :- PreparedBody(body);
    var u :- PrepareUrl(url, slugs);
    Ok((u, b))
  }

  // ----- responses -----

  /** An HTTP response as the client sees it: its status and its decoded
      JSON body. */
  datatype Response = Response(status: int, body: Value)

  /** `response.raise_for_status()` passes exactly the 2xx statuses. */
  predicate IsSuccess(status: int) {
    200 <= status < 300
  }

  /** Python's `v[key]` on decoded JSON. */
  function Subscript(v: Value, key: string): (r: Result<Value, Error>)
    ensures r.Ok? <==> v.Obj? && key in v.fields
    ensures r.Ok? ==> r.value == v.fields[key]
    ensures v.Obj? && key !in v.fields ==> r == Err(Key(key))
    ensures !v.Obj? ==> r == Err(Type)
  {
    if !v.Obj? then Err(Type)
    else if key in v.fields then Ok(v.fields[key])
    else Err(Key(key))
  }

  /** The error-code table; any other code is the generic HTTP error. */
  function KindOfCode(code: Value): HttpKind {
    if code == Str("conflict") then Conflict
    else if code == Str("bad_request") then BadRequest
    else if code == Str("unauthorized") then Unauthorized
    else if code == Str("not_found") then NotFound
    else if code == Str("internal_server_error") then InternalServerError
    else if code == Str("forbidden") then Forbidden
    else Generic
  }

  /** The code each specific kind answers to. */
  function CodeOfKind(kind: HttpKind): Option<string> {
    match kind
    case Generic => None
    case Conflict => Some("conflict")
    case BadRequest => Some("bad_request")
    case Unauthorized => Some("unauthorized")
    case NotFound => Some("not_found")
    case InternalServerError => Some("internal_server_error")
    case Forbidden => Some("forbidden")
  }

  /** The table is one-to-one: each specific kind has one code, and each
      code that is not generic names its kind. */
  lemma CodeTableRoundTrip(kind: HttpKind, code: Value)
    ensures kind != Generic ==> CodeOfKind(kind).Some? && KindOfCode(Str(CodeOfKind(kind).value)) == kind
    ensures KindOfCode(code) != Generic ==> code == Str(CodeOfKind(KindOfCode(code)).value)
    ensures KindOfCode(code) == Generic <==>
      !(code.Str? && code.s in {"conflict", "bad_request", "unauthorized", "not_found", "internal_server_error",
                                "forbidden"})
  {
  }

  /** The typed error for a response whose body parsed as the error
      envelope: `data["error"]["code"]` picks the kind and
      `data["error"]["message"]` is the message. */
  function EnvelopeError(resp: Response): (r: Result<(), Error>)
    ensures r.Err?
    ensures r.error.Http? ==> r.error.statusCode == resp.status
  {
    var err :- Subscript(resp.body, "error");
    var code :- Subscript(err, "code");
    var msg :- Subscript(err, "message");
    Err(NewHttp(KindOfCode(code), resp.status, msg))
  }

  /** The fallback for a body that is not the error envelope: not-found
      with the body's top-level `message` for 404, the generic error with
      its default message otherwise. */
  function FallbackError(resp: Response): (r: Result<(), Error>)
    ensures r.Err?
    ensures resp.status != 404 ==> r == Err(NewHttp(Generic, resp.status))
    ensures resp.status == 404 && resp.body.Obj? && "message" in resp.body.fields ==>
      r == Err(NewHttp(NotFound, 404, resp.body.fields["message"]))
  {
    if resp.status == 404 then
      var msg :- Subscript(resp.body, "message");
      Err(NewHttp(NotFound, resp.status, msg))
    else Err(NewHttp(Generic, resp.status))
  }

  /** `validate_response` as written: an error envelope that parses takes
      the code table, even when its optional `error` is absent. */
  function ValidateResponseAsWritten(resp: Response): (r: Result<(), Error>)
    ensures r.Ok? <==> IsSuccess(resp.status)
  {
    if IsSuccess(resp.status) then Ok(())
    else if Load(APIErrorSchema, resp.body).Ok? then EnvelopeError(resp)
    else FallbackError(resp)
  }

  /** The error envelope with its `error` required, as the code table
      needs it to be. */
  const APIErrorSchemaRequired := Schema(map[
    "success" := FieldSpec(BoolField, true, false, [Equal(Bool(false))]),
    "error" := Plain(NestedField(ErrorSchema), true, false)], Raise)

  /** `validate_response` with `error` required: an envelope without it
      goes to the fallback. */
  function ValidateResponse(resp: Response): (r: Result<(), Error>)
    ensures r.Ok? <==> IsSuccess(resp.status)
    ensures !IsSuccess(resp.status) && resp.status != 404 ==> r.error.Http? && r.error.statusCode == resp.status
  {
    if IsSuccess(resp.status) then Ok(())
    else if Load(APIErrorSchemaRequired, resp.body).Ok? then EnvelopeErrorTyped(resp); EnvelopeError(resp)
    else FallbackError(resp)
  }

  /** The body holds `error` with string `code` and `message`. */
  predicate HasErrorDetail(body: Value) {
    body.Obj? && "error" in body.fields && body.fields["error"].Obj?
    && "code" in body.fields["error"].fields && body.fields["error"].fields["code"].Str?
    && "message" in body.fields["error"].fields && body.fields["error"].fields["message"].Str?
  }

  /** `data["error"][key]` of a body that has the detail. */
  function Detail(body: Value, key: string): Value
    requires HasErrorDetail(body) && key in {"code", "message"}
  {
    body.fields["error"].fields[key]
  }

  /** A body that parses as the strict envelope carries a code and a
      message, so the code table applies and the error is typed. */
  lemma EnvelopeErrorTyped(resp: Response)
    requires Load(APIErrorSchemaRequired, resp.body).Ok?
    ensures HasErrorDetail(resp.body)
    ensures EnvelopeError(resp) == Err(NewHttp(KindOfCode(Detail(resp.body, "code")), resp.status,
                                                Detail(resp.body, "message")))
  {
    var m := resp.body.fields;
    LoadedField(APIErrorSchemaRequired, m, "error");
    var spec := APIErrorSchemaRequired.fields["error"];
    var e := m["error"];
    assert e != Null;
    assert Load(ErrorSchema, e).Ok?;
    LoadedField(ErrorSchema, e.fields, "code");
    LoadedField(ErrorSchema, e.fields, "message");
  }

  /** The discrepancy: a non-2xx reply `{"success": false}` parses as the
      error envelope, and reading its absent `error` raises `KeyError`
      instead of an HTTP error; the strict envelope gives the HTTP error. */
  lemma MissingErrorRaisesKeyError()
    ensures ValidateResponseAsWritten(Response(500, Obj(map["success" := Bool(false)]))) == Err(Key("error"))
    ensures ValidateResponse(Response(500, Obj(map["success" := Bool(false)]))) == Err(NewHttp(Generic, 500))
  {
    ErrorEnvelopeRules(map[]);
    var m := map["success" := Bool(false)];
    assert Load(APIErrorSchema, Obj(m)).Ok?;
    LoadRejectsMissing(APIErrorSchemaRequired, m, "error");
  }

  /** A non-2xx response always raises; each HTTP error carries the
      response's status; and a well-formed envelope selects its kind by
      code and its message from the envelope. */
  lemma ValidateResponseErrors(resp: Response)
    requires !IsSuccess(resp.status)
    ensures ValidateResponse(resp).Err?
    ensures ValidateResponse(resp).error.Http? ==> ValidateResponse(resp).error.statusCode == resp.status
    ensures Load(APIErrorSchemaRequired, resp.body).Ok? ==>
      HasErrorDetail(resp.body)
      && ValidateResponse(resp) == Err(NewHttp(KindOfCode(Detail(resp.body, "code")), resp.status,
                                                Detail(resp.body, "message")))
  {
    if Load(APIErrorSchemaRequired, resp.body).Ok? {
      EnvelopeErrorTyped(resp);
    }
  }

  // ----- prepare_response -----

  /** A response schema and whether it was built with `many=True`. */
  datatype ResponseSchema = ResponseSchema(schema: Schema, many: bool)

  /** `schema.load(data, many=True)`: a list, loaded item by item. */
  function LoadMany(s: Schema, v: Value): (r: Result<seq<Value>, Error>)
    ensures r.Ok? <==> v.Arr? && forall i | 0 <= i < |v.items| :: Load(s, v.items[i]).Ok?
    ensures r.Ok? ==>
      && v.Arr? && |r.value| == |v.items|
      && forall i | 0 <= i < |v.items| :: r.value[i] == Obj(Load(s, v.items[i]).value)
    ensures !v.Arr? ==> r == Err(Validation({"_schema"}))
  {
    if !v.Arr? then Err(Validation({"_schema"}))
    else LoadItems(s, v.items)
  }

  /** The items of a `many=True` load, in order; the first item that fails
      decides the error. */
  function LoadItems(s: Schema, xs: seq<Value>): (r: Result<seq<Value>, Error>)
    ensures r.Ok? <==> forall i | 0 <= i < |xs| :: Load(s, xs[i]).Ok?
    ensures r.Ok? ==> |r.value| == |xs|
    ensures r.Ok? ==> forall i | 0 <= i < |xs| :: Load(s, xs[i]).Ok? && r.value[i] == Obj(Load(s, xs[i]).value)
  {
    if xs == [] then Ok([])
    else
      var first :- Load(s, xs[0]);
      var rest :- LoadItems(s, xs[1..]);
      Ok([Obj(first)] + rest)
  }

  /** `prepare_response`: the response is validated first; a 204 or an
      absent response schema gives `{}`; otherwise the success envelope is
      loaded and its `data` goes through the response schema. */
  function PrepareResponse(resp: Response, rs: Option<ResponseSchema>): (r: Result<Value, Error>)
    ensures !IsSuccess(resp.status) ==> r == Err(ValidateResponse(resp).error)
    ensures IsSuccess(resp.status) && (resp.status == 204 || rs.None?) ==> r == Ok(Obj(map[]))
    ensures r.Ok? && resp.status != 204 && rs.Some? && !rs.value.many ==>
      resp.body.Obj? && "success" in resp.body.fields && AsBool(resp.body.fields["success"]) == Some(true)
      && "data" in resp.body.fields && resp.body.fields["data"].Obj?
      && Load(rs.value.schema, resp.body.fields["data"]).Ok?
      && r == Ok(Obj(Load(rs.value.schema, resp.body.fields["data"]).value))
    ensures IsSuccess(resp.status) && resp.status != 204 && rs.Some? && Load(APISuccessSchema, resp.body).Err? ==>
      r == Err(Load(APISuccessSchema, resp.body).error)
    ensures (IsSuccess(resp.status) && resp.status != 204 && rs.Some? && !rs.value.many
             && Load(APISuccessSchema, resp.body).Ok?) ==>
      resp.body.Obj? && "data" in resp.body.fields
      && var loaded := Load(rs.value.schema, resp.body.fields["data"]);
         (loaded.Ok? ==> r == Ok(Obj(loaded.value))) && (loaded.Err? ==> r == Err(loaded.error))
  {
    var _ :- ValidateResponse(resp);
    if resp.status == 204 || rs.None? then Ok(Obj(map[]))
    else
      var api :- Load(APISuccessSchema, resp.body);
      LoadedField(APISuccessSchema, resp.body.fields, "data");
      var data := api["data"];
      if rs.value.many then
        var items :- LoadMany(rs.value.schema, data);
        Ok(Arr(items))
      else
        SuccessEnvelopeRules(resp.body.fields);
        var loaded :- Load(rs.value.schema, data);
        Ok(Obj(loaded))
  }

  /** With a `many=True` response schema no successful reply gets through:
      the envelope's `data` is always a dict, never the list `many` needs. */
  lemma ManyResponsesFail(resp: Response, schema: Schema)
    requires resp.status != 204
    ensures PrepareResponse(resp, Some(ResponseSchema(schema, true))).Err?
  {
    if IsSuccess(resp.status) && Load(APISuccessSchema, resp.body).Ok? {
      SuccessEnvelopeRules(resp.body.fields);
    }
  }
}
