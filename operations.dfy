/**
 * The operations of the async REST client (lawg/asyncio/rest.py): which
 * template, method, slug dict, body dict and schemas each one hands to
 * `request`, and `request` itself as prepare, one HTTP call, normalise.
 * The HTTP call is a parameter: a server that maps a call to a response.
 */
module Operations {
  import opened Wrappers
  import opened Json
  import opened Exceptions
  import opened Schemas
  import opened SchemaFacts
  import opened Rest

  datatype Verb = Get | Post | Patch | Delete

  /** The keyword arguments of one `request` call. */
  datatype RequestSpec = RequestSpec(
    url: Template,
    verb: Verb,
    body: Option<BodySpec>,
    slugs: Option<SlugSpec>,
    response: Option<ResponseSchema>)

  /** The HTTP call `request` makes: method, final URL and JSON body. */
  datatype HttpCall = HttpCall(verb: Verb, url: string, json: Option<map<string, Value>>)

  /** What one `request` does: the HTTP call it made, if any, and its result. */
  datatype Exchange = Exchange(call: Option<HttpCall>, result: Result<Value, Error>)

  /** `request`: `prepare_request`, then exactly one HTTP call with the
      prepared URL and body, then `prepare_response` on its reply. An error
      while preparing means no call at all. */
  function Perform(spec: RequestSpec, server: HttpCall -> Response): (x: Exchange)
    ensures x.call.Some? <==> PreparedRequest(spec.url, spec.body, spec.slugs).Ok?
    ensures x.call.None? ==> x.result == Err(PreparedRequest(spec.url, spec.body, spec.slugs).error)
    ensures x.call.Some? ==>
      x.call.value.verb == spec.verb
      && x.call.value.url == PrepareUrl(spec.url, spec.slugs).value
      && x.call.value.json == PreparedBody(spec.body).value
      && x.result == PrepareResponse(server(x.call.value), spec.response)
  {
    match PreparedRequest(spec.url, spec.body, spec.slugs)
    case Err(e) => Exchange(None, Err(e))
    case Ok((url, json)) =>
      var call := HttpCall(spec.verb, url, json);
      Exchange(Some(call), PrepareResponse(server(call), spec.response))
  }

  function Body(data: map<string, Field>, schema: Schema): Option<BodySpec> {
    Some(BodySpec(data, schema))
  }

  function Slugs(data: map<string, Value>, schema: Schema): Option<SlugSpec> {
    Some(SlugSpec(data, schema))
  }

  function One(schema: Schema): Option<ResponseSchema> {
    Some(ResponseSchema(schema, false))
  }

  function Many(schema: Schema): Option<ResponseSchema> {
    Some(ResponseSchema(schema, true))
  }

  /** The template's `{name}` slots are exactly the slugs passed: each slot
      has a value and no slug is left over. */
  predicate SlotsFilled(spec: RequestSpec) {
    if spec.slugs.None? then SlotNames(spec.url) == {} else SlotNames(spec.url) == spec.slugs.value.data.Keys
  }

  /** The slug schema declares exactly the slugs passed. */
  predicate SlugsDeclared(spec: RequestSpec) {
    spec.slugs.Some? && spec.slugs.value.data.Keys == spec.slugs.value.schema.fields.Keys
  }

  /** A slug is passed that the slug schema does not declare. */
  predicate Undeclared(spec: RequestSpec, slug: string) {
    spec.slugs.Some? && slug in spec.slugs.value.data && slug !in spec.slugs.value.schema.fields
  }

  /** Every key of the body is a field the body schema declares. */
  predicate BodyDeclared(spec: RequestSpec) {
    spec.body.Some? && spec.body.value.data.Keys <= spec.body.value.schema.fields.Keys
  }

  // Each operation is followed by its route lemma (verb, URL template,
  // slugs against their schema, response schema) and, when it sends a body,
  // its payload lemma (the body against its schema).

  // ----- projects -----

  function CreateProject(project: Value, projectName: Value): RequestSpec {
    RequestSpec(API_CREATE_PROJECT, Post,
      Body(map["namespace" := Present(project), "name" := Present(projectName)], ProjectCreateBodySchema),
      None, One(ProjectSchema))
  }

  lemma CreateProjectRoute(project: Value, projectName: Value)
    ensures var spec := CreateProject(project, projectName);
      && spec.verb == Post && TemplateText(spec.url) == API_V1_PROJECTS && spec.slugs.None?
      && SlotsFilled(spec) && spec.response == One(ProjectSchema)
  {
    ProjectTemplatesSpelled();
  }

  lemma CreateProjectPayload(project: Value, projectName: Value)
    ensures var spec := CreateProject(project, projectName);
      && BodyDeclared(spec)
      && spec.body.value.data == Lift(map["namespace" := project, "name" := projectName])
  {
    var m0: map<string, Value> := map[];
    LiftUpdate(m0, "namespace", project);
    LiftUpdate(m0["namespace" := project], "name", projectName);
  }

  function FetchProject(project: Value): RequestSpec {
    RequestSpec(API_GET_PROJECT, Get, None,
      Slugs(map["namespace" := project], ProjectGetSlugSchema), One(ProjectSchema))
  }

  lemma FetchProjectRoute(project: Value)
    ensures var spec := FetchProject(project);
      && spec.verb == Get && TemplateText(spec.url) == API_V1_PROJECTS + "/{namespace}" && spec.body.None?
      && SlotsFilled(spec) && SlugsDeclared(spec) && spec.response == One(ProjectSchema)
  {
    ProjectTemplatesSpelled();
  }

  function EditProject(project: Value, projectName: Value): RequestSpec {
    RequestSpec(API_EDIT_PROJECT, Patch,
      Body(map["name" := Present(projectName)], ProjectPatchBodySchema),
      Slugs(map["namespace" := project], ProjectPatchSlugSchema), One(ProjectSchema))
  }

  lemma EditProjectRoute(project: Value, projectName: Value)
    ensures var spec := EditProject(project, projectName);
      && spec.verb == Patch && TemplateText(spec.url) == API_V1_PROJECTS + "/{namespace}"
      && SlotsFilled(spec) && SlugsDeclared(spec) && spec.response == One(ProjectSchema)
  {
    ProjectTemplatesSpelled();
  }

  lemma EditProjectPayload(project: Value, projectName: Value)
    ensures var spec := EditProject(project, projectName);
      && BodyDeclared(spec) && spec.body.value.data == Lift(map["name" := projectName])
  {
    LiftUpdate(map[], "name", projectName);
  }

  function DeleteProject(project: Value): RequestSpec {
    RequestSpec(API_DELETE_PROJECT, Delete, None,
      Slugs(map["namespace" := project], ProjectDeleteSlugSchema), None)
  }

  lemma DeleteProjectRoute(project: Value)
    ensures var spec := DeleteProject(project);
      && spec.verb == Delete && TemplateText(spec.url) == API_V1_PROJECTS + "/{namespace}" && spec.body.None?
      && SlotsFilled(spec) && SlugsDeclared(spec) && spec.response.None?
  {
    ProjectTemplatesSpelled();
  }

  // ----- feeds -----

  function CreateFeed(project: Value, feed: Value, description: Value := Null, emoji: Value := Null): RequestSpec {
    RequestSpec(API_CREATE_FEED, Post,
      Body(map["name" := Present(feed), "description" := Present(description), "emoji" := Present(emoji)],
           FeedCreateBodySchema),
      Slugs(map["namespace" := project], FeedCreateSlugSchema), One(FeedSchema))
  }

  lemma CreateFeedRoute(project: Value, feed: Value, description: Value, emoji: Value)
    ensures var spec := CreateFeed(project, feed, description, emoji);
      && spec.verb == Post && TemplateText(spec.url) == API_V1_PROJECTS + "/{namespace}/feeds"
      && SlotsFilled(spec) && SlugsDeclared(spec) && spec.response == One(FeedSchema)
  {
    FeedTemplatesSpelled();
  }

  lemma CreateFeedPayload(project: Value, feed: Value, description: Value, emoji: Value)
    ensures var spec := CreateFeed(project, feed, description, emoji);
      && BodyDeclared(spec)
      && spec.body.value.data == Lift(map["name" := feed, "description" := description, "emoji" := emoji])
  {
    var m0: map<string, Value> := map[];
    var m1 := m0["name" := feed];
    LiftUpdate(m0, "name", feed);
    LiftUpdate(m1, "description", description);
    LiftUpdate(m1["description" := description], "emoji", emoji);
  }

  function EditFeed(project: Value, feed: Value, name: Field := Unset, description: Field := Unset,
                    emoji: Field := Unset): RequestSpec {
    RequestSpec(API_EDIT_FEED, Patch,
      Body(map["name" := name, "description" := description, "emoji" := emoji], FeedPatchBodySchema),
      Slugs(map["namespace" := project, "feed" := feed], FeedPatchSlugSchema), One(FeedSchema))
  }

  lemma EditFeedRoute(project: Value, feed: Value, name: Field, description: Field, emoji: Field)
    ensures var spec := EditFeed(project, feed, name, description, emoji);
      && spec.verb == Patch && TemplateText(spec.url) == API_V1_PROJECTS + "/{namespace}/feeds/{feed}"
      && SlotsFilled(spec) && Undeclared(spec, "feed") && spec.response == One(FeedSchema)
  {
    FeedTemplatesSpelled();
  }

  lemma EditFeedPayload(project: Value, feed: Value, name: Field, description: Field, emoji: Field)
    ensures var spec := EditFeed(project, feed, name, description, emoji);
      && BodyDeclared(spec) && spec.body.value.data.Keys == {"name", "description", "emoji"}
  {
  }

  function DeleteFeed(project: Value, feed: Value): RequestSpec {
    RequestSpec(API_DELETE_FEED, Delete, None,
      Slugs(map["namespace" := project, "feed" := feed], FeedDeleteSlugSchema), None)
  }

  lemma DeleteFeedRoute(project: Value, feed: Value)
    ensures var spec := DeleteFeed(project, feed);
      && spec.verb == Delete && TemplateText(spec.url) == API_V1_PROJECTS + "/{namespace}/feeds/{feed}"
      && spec.body.None? && SlotsFilled(spec) && Undeclared(spec, "feed") && spec.response.None?
  {
    FeedTemplatesSpelled();
  }

  // ----- events -----

  function CreateEvent(project: Value, feed: Value, title: Value, description: Value := Null,
                       emoji: Value := Null, tags: Value := Null, timestamp: Value := Null,
                       notify: Value := Null, metadata: Value := Null): RequestSpec {
    RequestSpec(API_CREATE_EVENT, Post,
      Body(map["title" := Present(title), "description" := Present(description), "emoji" := Present(emoji),
               "tags" := Present(tags), "timestamp" := Present(timestamp), "notify" := Present(notify),
               "metadata" := Present(metadata)], EventCreateBodySchema),
      Slugs(map["namespace" := project, "feed" := feed], EventCreateSlugSchema), One(EventSchema))
  }

  lemma CreateEventRoute(project: Value, feed: Value, title: Value, description: Value, emoji: Value, tags: Value,
                         timestamp: Value, notify: Value, metadata: Value)
    ensures var spec := CreateEvent(project, feed, title, description, emoji, tags, timestamp, notify, metadata);
      && spec.verb == Post && TemplateText(spec.url) == API_V1_PROJECTS + "/{namespace}/feeds/{feed}/events"
      && SlotsFilled(spec) && SlugsDeclared(spec) && spec.response == One(EventSchema)
      && "metadata" !in spec.body.value.schema.fields
  {
    EventsTemplateSpelled();
  }

  lemma CreateEventPayload(project: Value, feed: Value, title: Value, description: Value, emoji: Value, tags: Value,
                           timestamp: Value, notify: Value, metadata: Value)
    ensures var spec := CreateEvent(project, feed, title, description, emoji, tags, timestamp, notify, metadata);
      spec.body.value.data == Lift(map["title" := title, "description" := description, "emoji" := emoji,
                                       "tags" := tags, "timestamp" := timestamp, "notify" := notify,
                                       "metadata" := metadata])
  {
    assert CreateEvent(project, feed, title, description, emoji, tags, timestamp, notify, metadata).body.value.data
        == map["title" := Present(title), "description" := Present(description), "emoji" := Present(emoji),
               "tags" := Present(tags), "timestamp" := Present(timestamp), "notify" := Present(notify),
               "metadata" := Present(metadata)];
    LiftEventFields(title, description, emoji, tags, timestamp, notify, metadata);
  }

  /** The event create body is the lifted argument dict. */
  lemma LiftEventFields(title: Value, description: Value, emoji: Value, tags: Value, timestamp: Value, notify: Value,
                        metadata: Value)
    ensures map["title" := Present(title), "description" := Present(description), "emoji" := Present(emoji),
                "tags" := Present(tags), "timestamp" := Present(timestamp), "notify" := Present(notify),
                "metadata" := Present(metadata)]
         == Lift(map["title" := title, "description" := description, "emoji" := emoji, "tags" := tags,
                     "timestamp" := timestamp, "notify" := notify, "metadata" := metadata])
  {
    var m0: map<string, Value> := map[];
    var m1 := m0["title" := title];
    var m2 := m1["description" := description];
    var m3 := m2["emoji" := emoji];
    var m4 := m3["tags" := tags];
    var m5 := m4["timestamp" := timestamp];
    var m6 := m5["notify" := notify];
    LiftUpdate(m0, "title", title);
    LiftUpdate(m1, "description", description);
    LiftUpdate(m2, "emoji", emoji);
    LiftUpdate(m3, "tags", tags);
    LiftUpdate(m4, "timestamp", timestamp);
    LiftUpdate(m5, "notify", notify);
    LiftUpdate(m6, "metadata", metadata);
  }

  function FetchEvent(project: Value, feed: Value, eventId: Value): RequestSpec {
    RequestSpec(API_GET_EVENT, Get, None,
      Slugs(map["namespace" := project, "feed" := feed, "event_id" := eventId], EventGetSlugSchema),
      One(EventSchema))
  }

  lemma FetchEventRoute(project: Value, feed: Value, eventId: Value)
    ensures var spec := FetchEvent(project, feed, eventId);
      && spec.verb == Get
      && TemplateText(spec.url) == API_V1_PROJECTS + "/{namespace}/feeds/{feed}/events/{event_id}"
      && spec.body.None? && SlotsFilled(spec) && Undeclared(spec, "feed")
      && spec.response == One(EventSchema)
  {
    EventTemplateSpelled();
  }

  function FetchEvents(project: Value, feed: Value, limit: Value := Null, offset: Value := Null): RequestSpec {
    RequestSpec(API_GET_EVENTS, Get,
      Body(map["limit" := Present(limit), "offset" := Present(offset)], EventGetMultipleBodySchema),
      Slugs(map["namespace" := project, "feed" := feed], EventGetMultipleSlugSchema), Many(EventSchema))
  }

  lemma FetchEventsRoute(project: Value, feed: Value, limit: Value, offset: Value)
    ensures var spec := FetchEvents(project, feed, limit, offset);
      && spec.verb == Get && TemplateText(spec.url) == API_V1_PROJECTS + "/{namespace}/feeds/{feed}/events"
      && SlotsFilled(spec) && Undeclared(spec, "feed") && spec.response == Many(EventSchema)
  {
    EventsTemplateSpelled();
  }

  lemma FetchEventsPayload(project: Value, feed: Value, limit: Value, offset: Value)
    ensures var spec := FetchEvents(project, feed, limit, offset);
      && BodyDeclared(spec) && spec.body.value.data == Lift(map["limit" := limit, "offset" := offset])
  {
    var m0: map<string, Value> := map[];
    LiftUpdate(m0, "limit", limit);
    LiftUpdate(m0["limit" := limit], "offset", offset);
  }

  function EditEvent(project: Value, feed: Value, eventId: Value, title: Field := Unset,
                     description: Field := Unset, emoji: Field := Unset, tags: Field := Unset,
                     timestamp: Field := Unset): RequestSpec {
    RequestSpec(API_EDIT_EVENT, Patch,
      Body(map["title" := title, "description" := description, "emoji" := emoji, "tags" := tags,
               "timestamp" := timestamp], EventPatchBodySchema),
      Slugs(map["namespace" := project, "feed" := feed, "event_id" := eventId], EventPatchSlugSchema),
      One(EventSchema))
  }

  lemma EditEventRoute(project: Value, feed: Value, eventId: Value, title: Field, description: Field, emoji: Field,
                       tags: Field, timestamp: Field)
    ensures var spec := EditEvent(project, feed, eventId, title, description, emoji, tags, timestamp);
      && spec.verb == Patch
      && TemplateText(spec.url) == API_V1_PROJECTS + "/{namespace}/feeds/{feed}/events/{event_id}"
      && SlotsFilled(spec) && Undeclared(spec, "feed") && spec.response == One(EventSchema)
  {
    EventTemplateSpelled();
  }

  lemma EditEventPayload(project: Value, feed: Value, eventId: Value, title: Field, description: Field, emoji: Field,
                         tags: Field, timestamp: Field)
    ensures var spec := EditEvent(project, feed, eventId, title, description, emoji, tags, timestamp);
      && BodyDeclared(spec)
      && spec.body.value.data.Keys == {"title", "description", "emoji", "tags", "timestamp"}
  {
  }

  function DeleteEvent(project: Value, feed: Value, eventId: Value): RequestSpec {
    RequestSpec(API_DELETE_EVENT, Delete, None,
      Slugs(map["namespace" := project, "feed" := feed, "event_id" := eventId], EventDeleteSlugSchema), None)
  }

  lemma DeleteEventRoute(project: Value, feed: Value, eventId: Value)
    ensures var spec := DeleteEvent(project, feed, eventId);
      && spec.verb == Delete
      && TemplateText(spec.url) == API_V1_PROJECTS + "/{namespace}/feeds/{feed}/events/{event_id}"
      && spec.body.None? && SlotsFilled(spec) && SlugsDeclared(spec) && spec.response.None?
  {
    EventTemplateSpelled();
  }

  // ----- insights -----

  function CreateInsight(project: Value, title: Value, description: Value := Null, value: Value := Null,
                         emoji: Value := Null): RequestSpec {
    RequestSpec(API_CREATE_INSIGHT, Post,
      Body(map["title" := Present(title), "description" := Present(description), "emoji" := Present(emoji),
               "value" := Present(value)], InsightCreateBodySchema),
      Slugs(map["namespace" := project], InsightCreateSlugSchema), One(InsightSchema))
  }

  lemma CreateInsightRoute(project: Value, title: Value, description: Value, value: Value, emoji: Value)
    ensures var spec := CreateInsight(project, title, description, value, emoji);
      && spec.verb == Post && TemplateText(spec.url) == API_V1_PROJECTS + "/{namespace}/insights"
      && SlotsFilled(spec) && SlugsDeclared(spec) && spec.response == One(InsightSchema)
      && "description" !in spec.body.value.schema.fields
  {
    InsightsTemplateSpelled();
  }

  lemma CreateInsightPayload(project: Value, title: Value, description: Value, value: Value, emoji: Value)
    ensures var spec := CreateInsight(project, title, description, value, emoji);
      spec.body.value.data == Lift(map["title" := title, "description" := description, "emoji" := emoji,
                                       "value" := value])
  {
    assert CreateInsight(project, title, description, value, emoji).body.value.data
        == map["title" := Present(title), "description" := Present(description), "emoji" := Present(emoji),
               "value" := Present(value)];
    LiftInsightFields(title, description, emoji, value);
  }

  /** The insight create body is the lifted argument dict. */
  lemma LiftInsightFields(title: Value, description: Value, emoji: Value, value: Value)
    ensures map["title" := Present(title), "description" := Present(description), "emoji" := Present(emoji),
                "value" := Present(value)]
         == Lift(map["title" := title, "description" := description, "emoji" := emoji, "value" := value])
  {
    var m0: map<string, Value> := map[];
    var m1 := m0["title" := title];
    var m2 := m1["description" := description];
    var m3 := m2["emoji" := emoji];
    LiftUpdate(m0, "title", title);
    LiftUpdate(m1, "description", description);
    LiftUpdate(m2, "emoji", emoji);
    LiftUpdate(m3, "value", value);
  }

  function FetchInsight(project: Value, insightId: Value): RequestSpec {
    RequestSpec(API_GET_INSIGHTS, Get, None,
      Slugs(map["namespace" := project, "insight_id" := insightId], InsightGetSlugSchema), One(InsightSchema))
  }

  lemma FetchInsightRoute(project: Value, insightId: Value)
    ensures var spec := FetchInsight(project, insightId);
      && spec.verb == Get && TemplateText(spec.url) == API_V1_PROJECTS + "/{namespace}/insights"
      && spec.body.None? && SlugsDeclared(spec) && SlotNames(spec.url) == {"namespace"}
      && spec.slugs.value.data.Keys == {"namespace", "insight_id"} && spec.response == One(InsightSchema)
  {
    InsightsTemplateSpelled();
  }

  function FetchInsights(project: Value): RequestSpec {
    RequestSpec(API_GET_INSIGHTS, Get, None,
      Slugs(map["namespace" := project], InsightGetMultipleBodySchema), Many(InsightSchema))
  }

  lemma FetchInsightsRoute(project: Value)
    ensures var spec := FetchInsights(project);
      && spec.verb == Get && TemplateText(spec.url) == API_V1_PROJECTS + "/{namespace}/insights"
      && spec.body.None? && SlotsFilled(spec) && SlugsDeclared(spec) && spec.response == Many(InsightSchema)
  {
    InsightsTemplateSpelled();
  }

  function EditInsight(project: Value, insightId: Value, title: Field := Unset, description: Field := Unset,
                       emoji: Field := Unset, value: Field := Unset): RequestSpec {
    RequestSpec(API_EDIT_INSIGHT, Patch,
      Body(map["title" := title, "description" := description, "emoji" := emoji, "value" := value],
           InsightPatchBodySchema),
      Slugs(map["namespace" := project, "insight_id" := insightId], InsightPatchSlugSchema), One(InsightSchema))
  }

  lemma EditInsightRoute(project: Value, insightId: Value, title: Field, description: Field, emoji: Field,
                         value: Field)
    ensures var spec := EditInsight(project, insightId, title, description, emoji, value);
      && spec.verb == Patch
      && TemplateText(spec.url) == API_V1_PROJECTS + "/{namespace}/insights/{insight_id}"
      && SlotsFilled(spec) && SlugsDeclared(spec) && spec.response == One(InsightSchema)
  {
    InsightTemplateSpelled();
  }

  lemma EditInsightPayload(project: Value, insightId: Value, title: Field, description: Field, emoji: Field,
                           value: Field)
    ensures var spec := EditInsight(project, insightId, title, description, emoji, value);
      && BodyDeclared(spec) && spec.body.value.data.Keys == {"title", "description", "emoji", "value"}
  {
  }

  function DeleteInsight(project: Value, insightId: Value): RequestSpec {
    RequestSpec(API_DELETE_INSIGHT, Delete, None,
      Slugs(map["namespace" := project, "insight_id" := insightId], InsightValueSchema), None)
  }

  lemma DeleteInsightRoute(project: Value, insightId: Value)
    ensures var spec := DeleteInsight(project, insightId);
      && spec.verb == Delete
      && TemplateText(spec.url) == API_V1_PROJECTS + "/{namespace}/insights/{insight_id}" && spec.body.None?
      && SlotsFilled(spec) && spec.response.None? && Undeclared(spec, "namespace")
      && Undeclared(spec, "insight_id")
  {
    InsightTemplateSpelled();
  }

  // ----- what the wiring sends -----

  predicate ValidNamespace(p: string) {
    1 <= |p| <= 32 && AllNamespaceChars(p)
  }

  /** A request whose body and URL prepare to `json` and `url` makes
      exactly that call and returns the normalised reply. */
  lemma SentAs(spec: RequestSpec, server: HttpCall -> Response, url: string, json: Option<map<string, Value>>)
    requires PreparedBody(spec.body) == Ok(json) && PrepareUrl(spec.url, spec.slugs) == Ok(url)
    ensures Perform(spec, server).call == Some(HttpCall(spec.verb, url, json))
    ensures Perform(spec, server).result == PrepareResponse(server(HttpCall(spec.verb, url, json)), spec.response)
  {
  }

  /** A body that strips to `m`, which its schema loads unchanged, is sent
      as `m`. */
  lemma BodyIs(data: map<string, Field>, schema: Schema, m: map<string, Value>)
    requires Strip(data) == m && m != map[] && Load(schema, Obj(m)) == Ok(m)
    ensures PreparedBody(Some(BodySpec(data, schema))) == Ok(Some(m))
  {
  }

  /** A body with one entry given and every other entry `UNDEFINED` strips
      to that entry. */
  lemma StripSingle(data: map<string, Field>, k: string, v: Value)
    requires k in data && data[k] == Present(v)
    requires forall j | j in data && j != k :: data[j] == Unset
    ensures Strip(data) == map[k := v]
  {
    assert Strip(data).Keys == {k};
  }

  /** Slugs that their schema loads unchanged are substituted as given. */
  lemma UrlIs(url: Template, slugs: map<string, Value>, schema: Schema)
    requires Load(schema, Obj(slugs)) == Ok(slugs)
    ensures PrepareUrl(url, Some(SlugSpec(slugs, schema))) == Format(url, slugs)
  {
  }

  /** The body `create_project` sends for a valid namespace and name. */
  lemma CreateProjectBody(project: string, name: string)
    requires ValidNamespace(project) && 1 <= |name| <= 32
    ensures PreparedBody(CreateProject(Str(project), Str(name)).body)
         == Ok(Some(map["namespace" := Str(project), "name" := Str(name)]))
  {
    var spec := CreateProject(Str(project), Str(name));
    var m := map["namespace" := Str(project), "name" := Str(name)];
    CreateProjectPayload(Str(project), Str(name));
    StripLift(m, map[]);
    NamespaceFieldAccepts(Str(project));
    LengthFieldAccepts(1, 32, true, false, Str(name));
    LoadExact(ProjectCreateBodySchema, m);
    assert "name" in m;
    BodyIs(spec.body.value.data, ProjectCreateBodySchema, m);
  }

  /** `create_project` POSTs `{namespace, name}` to the projects URL and
      normalises the reply with `ProjectSchema`. */
  lemma CreateProjectSends(project: string, name: string, server: HttpCall -> Response)
    requires ValidNamespace(project) && 1 <= |name| <= 32
    ensures Perform(CreateProject(Str(project), Str(name)), server).call
         == Some(HttpCall(Post, API_V1_PROJECTS, Some(map["namespace" := Str(project), "name" := Str(name)])))
    ensures Perform(CreateProject(Str(project), Str(name)), server).result
         == PrepareResponse(server(HttpCall(Post, API_V1_PROJECTS,
                                            Some(map["namespace" := Str(project), "name" := Str(name)]))),
                            One(ProjectSchema))
  {
    CreateProjectBody(project, name);
    assert TemplateText(API_CREATE_PROJECT) == API_V1_PROJECTS + "";
    assert API_V1_PROJECTS + "" == API_V1_PROJECTS;
    SentAs(CreateProject(Str(project), Str(name)), server, API_V1_PROJECTS,
           Some(map["namespace" := Str(project), "name" := Str(name)]));
  }

  /** The body `create_feed` sends for a valid name and no other argument. */
  lemma CreateFeedBody(project: Value, feed: string)
    requires 1 <= |feed| <= 24
    ensures PreparedBody(CreateFeed(project, Str(feed)).body)
         == Ok(Some(map["name" := Str(feed), "description" := Null, "emoji" := Null]))
  {
    var spec := CreateFeed(project, Str(feed));
    var m := map["name" := Str(feed), "description" := Null, "emoji" := Null];
    CreateFeedPayload(project, Str(feed), Null, Null);
    StripLift(m, map[]);
    FeedNameOnlyLoads(feed);
    assert "name" in m;
    BodyIs(spec.body.value.data, FeedCreateBodySchema, m);
  }

  /** A feed create body of a valid name and `None` for the rest loads
      unchanged. */
  lemma FeedNameOnlyLoads(feed: string)
    requires 1 <= |feed| <= 24
    ensures var m := map["name" := Str(feed), "description" := Null, "emoji" := Null];
      Load(FeedCreateBodySchema, Obj(m)) == Ok(m)
  {
    var m := map["name" := Str(feed), "description" := Null, "emoji" := Null];
    var fields := FeedCreateBodySchema.fields;
    assert FieldResult(fields["name"], Str(feed)) == Ok(Str(feed)) by {
      LengthFieldAccepts(1, 24, true, false, Str(feed));
    }
    assert FieldResult(fields["description"], Null) == Ok(Null) by {
      NullLoads(fields["description"]);
    }
    assert FieldResult(fields["emoji"], Null) == Ok(Null) by {
      NullLoads(fields["emoji"]);
    }
    LoadExact(FeedCreateBodySchema, m);
  }

  /** The URL `create_feed` posts to, for a valid namespace. */
  lemma FeedsUrl(project: string)
    requires ValidNamespace(project)
    ensures PrepareUrl(API_CREATE_FEED, Some(SlugSpec(map["namespace" := Str(project)], FeedCreateSlugSchema)))
         == Ok(API_V1_PROJECTS + "/" + project + "/feeds")
  {
    var slugs := map["namespace" := Str(project)];
    NamespaceFieldAccepts(Str(project));
    LoadExact(FeedCreateSlugSchema, slugs);
    UrlIs(API_CREATE_FEED, slugs, FeedCreateSlugSchema);
    FormatLitSlot("/feeds", "", slugs);
    FormatUnderProject([Lit("/feeds")], slugs, project);
  }

  /** `create_feed` sends the omitted description and emoji as `None`:
      they are kept, not stripped. */
  lemma CreateFeedKeepsNulls(project: string, feed: string, server: HttpCall -> Response)
    requires ValidNamespace(project) && 1 <= |feed| <= 24
    ensures Perform(CreateFeed(Str(project), Str(feed)), server).call
         == Some(HttpCall(Post, API_V1_PROJECTS + "/" + project + "/feeds",
                          Some(map["name" := Str(feed), "description" := Null, "emoji" := Null])))
  {
    CreateFeedBody(Str(project), feed);
    FeedsUrl(project);
    SentAs(CreateFeed(Str(project), Str(feed)), server, API_V1_PROJECTS + "/" + project + "/feeds",
           Some(map["name" := Str(feed), "description" := Null, "emoji" := Null]));
  }

  /** `edit_feed` with no field given is refused as an empty body before
      its slugs are looked at, and nothing is sent. */
  lemma EditFeedNothingIsEmpty(project: Value, feed: Value, server: HttpCall -> Response)
    ensures Perform(EditFeed(project, feed), server) == Exchange(None, Err(NewEmptyBody()))
  {
    var spec := EditFeed(project, feed);
    AllUndefinedIsEmpty(spec.body.value.data, FeedPatchBodySchema);
  }

  /** `edit_event` with no field given is refused as an empty body. */
  lemma EditEventNothingIsEmpty(project: Value, feed: Value, id: Value, server: HttpCall -> Response)
    ensures Perform(EditEvent(project, feed, id), server) == Exchange(None, Err(NewEmptyBody()))
  {
    var spec := EditEvent(project, feed, id);
    AllUndefinedIsEmpty(spec.body.value.data, EventPatchBodySchema);
  }

  /** `edit_insight` with no field given is refused as an empty body. */
  lemma EditInsightNothingIsEmpty(project: Value, id: Value, server: HttpCall -> Response)
    ensures Perform(EditInsight(project, id), server) == Exchange(None, Err(NewEmptyBody()))
  {
    var spec := EditInsight(project, id);
    AllUndefinedIsEmpty(spec.body.value.data, InsightPatchBodySchema);
  }

  /** The URL of one insight, for valid slugs. */
  lemma InsightUrl(project: string, id: string)
    requires ValidNamespace(project) && StartsWith(id, "insight_")
    ensures PrepareUrl(API_EDIT_INSIGHT, Some(SlugSpec(map["namespace" := Str(project), "insight_id" := Str(id)],
                                                       InsightPatchSlugSchema)))
         == Ok(API_V1_PROJECTS + "/" + project + "/insights/" + id)
  {
    var slugs := map["namespace" := Str(project), "insight_id" := Str(id)];
    InsightSlugsLoad(project, id);
    UrlIs(API_EDIT_INSIGHT, slugs, InsightPatchSlugSchema);
    InsightSlugsFormat(project, id);
  }

  /** Both insight slug schemas load a valid namespace and id unchanged. */
  lemma InsightSlugsLoad(project: string, id: string)
    requires ValidNamespace(project) && StartsWith(id, "insight_")
    ensures var slugs := map["namespace" := Str(project), "insight_id" := Str(id)];
      Load(InsightPatchSlugSchema, Obj(slugs)) == Ok(slugs) && Load(InsightGetSlugSchema, Obj(slugs)) == Ok(slugs)
  {
    var slugs := map["namespace" := Str(project), "insight_id" := Str(id)];
    NamespaceFieldAccepts(Str(project));
    LoadExact(InsightPatchSlugSchema, slugs);
    LoadExact(InsightGetSlugSchema, slugs);
  }

  /** The insight templates filled with a namespace and an id. */
  lemma InsightSlugsFormat(project: string, id: string)
    ensures var slugs := map["namespace" := Str(project), "insight_id" := Str(id)];
      && Format(API_EDIT_INSIGHT, slugs) == Ok(API_V1_PROJECTS + "/" + project + "/insights/" + id)
      && Format(API_GET_INSIGHTS, slugs) == Ok(API_V1_PROJECTS + "/" + project + "/insights")
  {
    var slugs := map["namespace" := Str(project), "insight_id" := Str(id)];
    FormatLitSlot("/insights/", "insight_id", slugs);
    FormatUnderProject([Lit("/insights/"), Slot("insight_id")], slugs, project);
    FormatLitSlot("/insights", "", slugs);
    FormatUnderProject([Lit("/insights")], slugs, project);
    var base := API_V1_PROJECTS + "/" + project;
    assert base + ("/insights/" + id) == base + "/insights/" + id;
  }

  /** The body `edit_insight` sends when given only a title. */
  lemma EditInsightTitleBody(project: Value, id: Value, title: string)
    requires 1 <= |title| <= 32
    ensures PreparedBody(EditInsight(project, id, title := Present(Str(title))).body)
         == Ok(Some(map["title" := Str(title)]))
  {
    var spec := EditInsight(project, id, title := Present(Str(title)));
    var m := map["title" := Str(title)];
    StripSingle(spec.body.value.data, "title", Str(title));
    assert FieldResult(InsightPatchBodySchema.fields["title"], Str(title)) == Ok(Str(title)) by {
      LengthFieldAccepts(1, 32, false, true, Str(title));
    }
    LoadExact(InsightPatchBodySchema, m);
    assert "title" in m;
    BodyIs(spec.body.value.data, InsightPatchBodySchema, m);
  }

  /** `edit_insight` sends only the fields it was given: with just a title,
      the PATCH body is that title alone. */
  lemma EditInsightSendsOnlyPassed(project: string, id: string, title: string, server: HttpCall -> Response)
    requires ValidNamespace(project) && StartsWith(id, "insight_") && 1 <= |title| <= 32
    ensures Perform(EditInsight(Str(project), Str(id), title := Present(Str(title))), server).call
         == Some(HttpCall(Patch, API_V1_PROJECTS + "/" + project + "/insights/" + id,
                          Some(map["title" := Str(title)])))
  {
    EditInsightTitleBody(Str(project), Str(id), title);
    InsightUrl(project, id);
    SentAs(EditInsight(Str(project), Str(id), title := Present(Str(title))), server,
           API_V1_PROJECTS + "/" + project + "/insights/" + id, Some(map["title" := Str(title)]));
  }

  /** A nested `{"set": amount}` passes the patch body's `value` field
      unchanged. */
  lemma SetValueLoads(amount: real)
    ensures FieldResult(InsightPatchBodySchema.fields["value"], Obj(map["set" := Num(amount)]))
         == Ok(Obj(map["set" := Num(amount)]))
  {
    var v := Obj(map["set" := Num(amount)]);
    assert FieldResult(InsightValueSchema.fields["set"], Num(amount)) == Ok(Num(amount));
    LoadExact(InsightValueSchema, v.fields);
  }

  /** The body `edit_insight` sends when given only a nested value. */
  lemma EditInsightValueBody(project: Value, id: Value, amount: real)
    ensures PreparedBody(EditInsight(project, id, value := Present(Obj(map["set" := Num(amount)]))).body)
         == Ok(Some(map["value" := Obj(map["set" := Num(amount)])]))
  {
    var v := Obj(map["set" := Num(amount)]);
    var spec := EditInsight(project, id, value := Present(v));
    var m := map["value" := v];
    StripSingle(spec.body.value.data, "value", v);
    SetValueLoads(amount);
    LoadExact(InsightPatchBodySchema, m);
    assert "value" in m;
    BodyIs(spec.body.value.data, InsightPatchBodySchema, m);
  }

  /** `edit_insight` forwards `value` unchanged as the nested object that
      `InsightValueSchema` checks. */
  lemma EditInsightForwardsValue(project: string, id: string, amount: real, server: HttpCall -> Response)
    requires ValidNamespace(project) && StartsWith(id, "insight_")
    ensures Perform(EditInsight(Str(project), Str(id), value := Present(Obj(map["set" := Num(amount)]))), server).call
         == Some(HttpCall(Patch, API_V1_PROJECTS + "/" + project + "/insights/" + id,
                          Some(map["value" := Obj(map["set" := Num(amount)])])))
  {
    EditInsightValueBody(Str(project), Str(id), amount);
    InsightUrl(project, id);
    SentAs(EditInsight(Str(project), Str(id), value := Present(Obj(map["set" := Num(amount)]))), server,
           API_V1_PROJECTS + "/" + project + "/insights/" + id, Some(map["value" := Obj(map["set" := Num(amount)])]));
  }

  /** `fetch_insight` requests the list URL: the insight id is validated
      and then dropped by the template. */
  lemma FetchInsightUsesListUrl(project: string, id: string, server: HttpCall -> Response)
    requires ValidNamespace(project) && StartsWith(id, "insight_")
    ensures Perform(FetchInsight(Str(project), Str(id)), server).call
         == Some(HttpCall(Get, API_V1_PROJECTS + "/" + project + "/insights", None))
  {
    var spec := FetchInsight(Str(project), Str(id));
    var slugs := map["namespace" := Str(project), "insight_id" := Str(id)];
    InsightSlugsLoad(project, id);
    UrlIs(API_GET_INSIGHTS, slugs, InsightGetSlugSchema);
    InsightSlugsFormat(project, id);
    SentAs(spec, server, API_V1_PROJECTS + "/" + project + "/insights", None);
  }

  // ----- wirings that cannot succeed -----

  /** A body that its schema refuses stops the request before any call,
      with the schema's error. */
  lemma BodyRefused(spec: RequestSpec, server: HttpCall -> Response)
    requires spec.body.Some? && Load(spec.body.value.schema, Obj(Strip(spec.body.value.data))).Err?
    ensures Perform(spec, server)
         == Exchange(None, Err(Load(spec.body.value.schema, Obj(Strip(spec.body.value.data))).error))
  {
  }

  /** `edit_feed` and `delete_feed` send the slug `feed` to schemas that
      declare `feed_name`: nothing is ever sent. */
  lemma FeedSlugMismatch(project: Value, feed: Value, name: Field, description: Field, emoji: Field,
                         server: HttpCall -> Response)
    ensures Perform(EditFeed(project, feed, name, description, emoji), server).call.None?
    ensures Perform(EditFeed(project, feed, name, description, emoji), server).result.Err?
    ensures Perform(DeleteFeed(project, feed), server).call.None?
    ensures Perform(DeleteFeed(project, feed), server).result.Err?
    ensures Perform(DeleteFeed(project, feed), server).result.error.Validation?
    ensures "feed" in Perform(DeleteFeed(project, feed), server).result.error.fields
  {
    var slugs := map["namespace" := project, "feed" := feed];
    LoadRejectsUnknown(FeedPatchSlugSchema, slugs, "feed");
    LoadRejectsUnknown(FeedDeleteSlugSchema, slugs, "feed");
  }

  /** `fetch_event`, `fetch_events` and `edit_event` send the slug `feed`
      to schemas that declare `feed_name`: nothing is ever sent. */
  lemma EventSlugMismatch(project: Value, feed: Value, id: Value, limit: Value, offset: Value,
                          title: Field, description: Field, emoji: Field, tags: Field, timestamp: Field,
                          server: HttpCall -> Response)
    ensures Perform(FetchEvent(project, feed, id), server).call.None?
    ensures Perform(FetchEvent(project, feed, id), server).result.Err?
    ensures Perform(FetchEvents(project, feed, limit, offset), server).call.None?
    ensures Perform(FetchEvents(project, feed, limit, offset), server).result.Err?
    ensures Perform(EditEvent(project, feed, id, title, description, emoji, tags, timestamp), server).call.None?
    ensures Perform(EditEvent(project, feed, id, title, description, emoji, tags, timestamp), server).result.Err?
  {
    var three := map["namespace" := project, "feed" := feed, "event_id" := id];
    LoadRejectsUnknown(EventGetSlugSchema, three, "feed");
    LoadRejectsUnknown(EventPatchSlugSchema, three, "feed");
    LoadRejectsUnknown(EventGetMultipleSlugSchema, map["namespace" := project, "feed" := feed], "feed");
  }

  /** `fetch_events` without a limit and offset sends them as `None`,
      which the pagination schema refuses. */
  lemma FetchEventsDefaultsRefused(project: Value, feed: Value, server: HttpCall -> Response)
    ensures Perform(FetchEvents(project, feed), server).result.Err?
    ensures Perform(FetchEvents(project, feed), server).result.error.Validation?
    ensures Perform(FetchEvents(project, feed), server).result.error.fields >= {"limit", "offset"}
  {
    var spec := FetchEvents(project, feed);
    var m := map["limit" := Null, "offset" := Null];
    FetchEventsPayload(project, feed, Null, Null);
    StripLift(m, map[]);
    LoadRejectsField(EventGetMultipleBodySchema, m, "limit");
    LoadRejectsField(EventGetMultipleBodySchema, m, "offset");
    BodyRefused(spec, server);
  }

  /** `create_event` always puts `metadata` in its body, which the body
      schema does not declare: the body is refused, whatever the arguments. */
  lemma CreateEventRefusesMetadata(project: Value, feed: Value, title: Value, description: Value,
                                   emoji: Value, tags: Value, timestamp: Value, notify: Value,
                                   metadata: Value, server: HttpCall -> Response)
    ensures var x := Perform(CreateEvent(project, feed, title, description, emoji, tags, timestamp, notify,
                                         metadata), server);
      x.call.None? && x.result.Err? && x.result.error.Validation? && "metadata" in x.result.error.fields
  {
    var spec := CreateEvent(project, feed, title, description, emoji, tags, timestamp, notify, metadata);
    var m := Strip(spec.body.value.data);
    assert "metadata" in m;
    LoadRejectsUnknown(EventCreateBodySchema, m, "metadata");
    BodyRefused(spec, server);
  }

  /** `create_insight` always puts `description` in its body, which the
      body schema does not declare: the body is refused. */
  lemma CreateInsightRefusesDescription(project: Value, title: Value, description: Value, value: Value,
                                        emoji: Value, server: HttpCall -> Response)
    ensures Perform(CreateInsight(project, title, description, value, emoji), server).call.None?
    ensures Perform(CreateInsight(project, title, description, value, emoji), server).result.Err?
    ensures Perform(CreateInsight(project, title, description, value, emoji), server).result.error.Validation?
    ensures "description" in Perform(CreateInsight(project, title, description, value, emoji), server).result.error.fields
  {
    var spec := CreateInsight(project, title, description, value, emoji);
    var m := Strip(spec.body.value.data);
    assert "description" in m;
    LoadRejectsUnknown(InsightCreateBodySchema, m, "description");
    BodyRefused(spec, server);
  }

  /** `delete_insight` checks its slugs with `InsightValueSchema`, which
      declares neither `namespace` nor `insight_id`: nothing is ever sent. */
  lemma DeleteInsightWrongSchema(project: Value, id: Value, server: HttpCall -> Response)
    ensures Perform(DeleteInsight(project, id), server).call.None?
    ensures Perform(DeleteInsight(project, id), server).result.Err?
    ensures Perform(DeleteInsight(project, id), server).result.error.Validation?
    ensures {"namespace", "insight_id"} <= Perform(DeleteInsight(project, id), server).result.error.fields
  {
    var slugs := map["namespace" := project, "insight_id" := id];
    LoadRejectsUnknown(InsightValueSchema, slugs, "namespace");
    LoadRejectsUnknown(InsightValueSchema, slugs, "insight_id");
  }

  /** `fetch_insights` never returns a list: unless the server answers 204
      (giving `{}`), its result is an error. */
  lemma FetchInsightsNeverList(project: Value, server: HttpCall -> Response)
    requires forall c :: server(c).status != 204
    ensures Perform(FetchInsights(project), server).result.Err?
  {
    var x := Perform(FetchInsights(project), server);
    if x.call.Some? {
      ManyResponsesFail(server(x.call.value), InsightSchema);
    }
  }

  /** The delete operations have no response schema: on success they
      return nothing but `{}`. */
  lemma DeletesReturnNothing(project: Value, feed: Value, id: Value, server: HttpCall -> Response)
    ensures Perform(DeleteProject(project), server).result.Ok? ==>
      Perform(DeleteProject(project), server).result.value == Obj(map[])
    ensures Perform(DeleteEvent(project, feed, id), server).result.Ok? ==>
      Perform(DeleteEvent(project, feed, id), server).result.value == Obj(map[])
  {
  }
}
