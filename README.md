# lawg client core, modelled in Dafny

lawg is a Python SDK for the lawg.dev logging service. Its core has five parts, and this project models them:

- **Request pipeline** (`lawg/base/rest.py`): `prepare_body` drops the `UNDEFINED` entries of a body, loads it through a marshmallow schema and refuses an empty result. `prepare_url` loads the slugs and fills the URL template with `str.format`. `validate_response` turns a non-2xx reply into a typed exception. `prepare_response` unwraps the `{success, data}` envelope and loads `data`.
- **Operations** (`lawg/asyncio/rest.py`): the project, feed, event and insight calls, each a choice of URL template, HTTP method, body schema, slug schema and response schema.
- **Schemas** (`lawg/schemas.py`): the constrained string fields (lengths, the namespace pattern, prefixed ids), the body, slug and response schemas, and the parts of marshmallow's `Schema.load` they rely on.
- **Log formatting** (`lawg/handler.py`): `prepare` fills a record's lawg attributes, and `format_log` chooses title, description and emoji by precedence.
- **Entity objects**: insights, events, logs and projects each cache a few fields and move once from live to deleted.

## Modules

| file | module | contents |
|---|---|---|
| `wrappers.dfy` | `Wrappers` | `Option` and `Result` |
| `json.dfy` | `Json` | JSON values, Python truthiness, and the `UNDEFINED` sentinel as `Field.Unset` |
| `exceptions.dfy` | `Exceptions` | the exception hierarchy as one `Error` datatype, with its default messages |
| `schemas.dfy` | `Schemas` | validators, field kinds, `Schema.load`, and every schema the operations use |
| `schema_facts.dfy` | `SchemaFacts` | what `load` accepts and returns, in general and for the lawg schemas |
| `rest.dfy` | `Rest` | URL templates and formatting, body, URL and request preparation, response validation and loading |
| `operations.dfy` | `Operations` | `request` and the seventeen operations, with what each one sends or why it can never succeed |
| `handler.dfy` | `Handler` | `LogRecord`, `prepare` and `format_log` |
| `facades.dfy` | `Facades` | the `Insight`, `Event`, `Log` and `Project` classes |

## Modelling choices

- **Python exceptions.** Every exception becomes an `Err` of one `Error` datatype:
  - the lawg exceptions;
  - marshmallow's `ValidationError`, recorded as the set of failing field names (`"_schema"` for a non-dict input);
  - `KeyError` and `TypeError` from subscripting and from `str.format`.
- **Exception names that do not exist.** `lawg/base/rest.py` and `lawg/handler.py` raise `LawgEmptyBodyError`, `LawgHTTPError`, `LawgNotFoundError`, `LawgEventUndefinedError` and similar names, and `lawg/asyncio/event.py:5` imports `LawgAlreadyDeletedError`. `lawg/exceptions.py` defines none of these names. The model gives each the behaviour of the `exceptions.py` class it evidently means (`LawgEmptyBody`, `LawgHTTPException`, `LawgNotFound`, …). The undefined-event error is built like any `LawgException`, with the event name as its message. The event's already-deleted error is `LawgAlreadyDeleted` with its default type, "log".
- **Values and arguments.** JSON floats are `real`. Arguments that callers pass are `Value`s, so that type errors stay reachable. Edit arguments are `Field`s: `Unset` models `UNDEFINED`.
- **Missing `DataWithSchema`.** `DataWithSchema` is imported from `lawg/typings.py`, which does not define it. The model takes it to be a (data, schema) pair.
- **The REST layer as a parameter.** An HTTP server is a function parameter `HttpCall -> Response`. An entity object receives its REST layer's reply, either the JSON or the exception, as a parameter, and returns the `Call` it made.
- **Objects and state.**
  - `LogRecord` and the four entity objects are classes. Their methods change only the fields they write, and each method's postcondition ties the new state to a specification function: `Prepared`, `AfterEdit` or `AfterDelete`.
  - The synchronous and asynchronous `Insight` classes differ only in `await`, so one class models both.
  - `lawg/base/log.py` sets `deleted` rather than `is_deleted`, and sets no feed name. The model's `Log` starts live and carries the feed name it is addressed by.
  - `lawg/asyncio/log.py:13` subscripts `BaseLog["AsyncClient"]`, but `BaseLog` (lawg/base/log.py:13) is not generic, so defining `AsyncLog` raises `TypeError`. `BaseLog` also sets no `client`. The model's `Log` takes the class body as meant: its REST reply comes in as a parameter, as for the other entities.
  - The synchronous `Project` (lawg/syncio/project.py) cannot be created as written, for three reasons:
    - `lawg/base/project.py:7` imports `F` from `lawg/typings.py`, which defines only `C`, `P`, `R`, `L` and `H`, so importing it raises `ImportError`;
    - `lawg/syncio/project.py:19` gives `BaseProject`, which takes three type parameters, four arguments;
    - `Project` leaves `BaseProject`'s abstract `create_feed`, `edit_feed`, `delete_feed`, `create_log`, `fetch_log`, `fetch_logs`, `edit_log` and `delete_log` unimplemented, so `Project(...)` raises `TypeError`.
    The model's `Project` takes the class body as meant, with `feed`, `log`, `edit` and `delete` only.

## Model

| member | source | states |
|---|---|---|
| Exceptions.MessageOr | lawg/exceptions.py:6-7 | the message is the given one when truthy, else the class default; it is never falsy |
| Exceptions.NewLawgException | lawg/exceptions.py:1-7 | a `LawgException` keeps a truthy message and otherwise carries "An error occurred." |
| Exceptions.NewHttp | lawg/exceptions.py:10-46 | an HTTP exception stores its kind and status code as given; its message defaults to "An HTTP error occurred." |
| Exceptions.NewAlreadyDeleted | lawg/exceptions.py:49-55 | the message is "The {type} has already been deleted."; the type defaults to "log" |
| Exceptions.NewEmptyBody | lawg/exceptions.py:58-61 | the default message is "The request body is empty." |
| Exceptions.NewIdMissing | lawg/exceptions.py:64-67 | the default message is "The log ID is missing." |
| Exceptions.NewEventUndefined | lawg/handler.py:117-118 | the error carries the (truthy) event name as its message |
| Schemas.ValidatePikaId | lawg/schemas.py:33-40 | accepts exactly the non-empty strings starting with `prefix_` and returns them unchanged; errors are checked in the order blank, then type, then prefix |
| Schemas.NamespaceMatchesAsWritten | lawg/schemas.py:58-60 | `re.match` with `^[a-z0-9_-]+$` accepts a non-empty run of the class, optionally followed by one final newline |
| Schemas.NamespaceMatches | lawg/schemas.py:58-60 | the intended pattern: accepts exactly the non-empty strings made only of `[a-z0-9_-]` |
| Schemas.NamespaceTrailingNewline | lawg/schemas.py:59 | `"acme\n"` passes the pattern as written and fails the intended one |
| Schemas.DeserializeAll | lawg/schemas.py:404-405 | a list field loads iff every item is non-null and loads; the result has the same length and holds each item's loaded value at its index |
| Schemas.Load | lawg/base/rest.py:121 | a non-dict fails with the `_schema` error; every other failure is a validation error naming at least one field; a loaded dict holds only keys that are declared and given |
| SchemaFacts.LoadAccepts | lawg/base/rest.py:121 | `load` succeeds iff every declared field is present and valid or absent and optional, and, under RAISE, no undeclared key is present |
| SchemaFacts.LoadedField | lawg/base/rest.py:121 | after a successful load, a declared field is in the result iff it was in the input, holds its deserialised value, and is present when required |
| SchemaFacts.StrFieldLoadsStr | lawg/schemas.py:58-88 | a non-nullable string or id field accepts only strings, unchanged |
| SchemaFacts.NullLoads | lawg/schemas.py:175-180 | a nullable field loads `None` as `None` |
| SchemaFacts.LoadKeys | lawg/base/rest.py:121 | the loaded keys are the input's declared keys; under RAISE they are exactly the input's keys |
| SchemaFacts.LoadRejectsUnknown | lawg/base/rest.py:141 | under RAISE an undeclared key fails the load and is named in the error |
| SchemaFacts.LoadRejectsMissing | lawg/base/rest.py:121 | a missing required field fails the load and is named |
| SchemaFacts.LoadRejectsField | lawg/base/rest.py:121 | a present field its spec rejects fails the load and is named |
| SchemaFacts.ExcludeDropsUnknown | lawg/schemas.py:377-380 | under EXCLUDE, extra undeclared keys do not change the result of the load |
| SchemaFacts.LoadEmpty | lawg/base/rest.py:121-124 | `{}` loads iff no field is required, and then loads to `{}` |
| SchemaFacts.LoadedStrings | lawg/base/rest.py:141-142 | a slug schema of non-nullable string and id fields yields only string slugs |
| SchemaFacts.LengthFieldAccepts | lawg/schemas.py:61-88 | a length-bounded string field accepts `None` iff nullable, and otherwise exactly the strings whose length is within the bounds |
| SchemaFacts.NamespaceFieldAccepts | lawg/schemas.py:58-60 | with the corrected pattern (`NamespaceMatches`), the namespace field accepts exactly the strings of 1 to 32 characters made of `[a-z0-9_-]`; as written it also accepts one trailing newline |
| SchemaFacts.PikaIdFieldAccepts | lawg/schemas.py:12-50 | an id field accepts exactly what `PikaId._validate` accepts, unchanged |
| SchemaFacts.TagsFieldAccepts | lawg/schemas.py:73-77 | the tags field accepts `None`, or a dict whose keys have 1 to 175 characters and whose values are strings, numbers or booleans |
| SchemaFacts.PaginationRules | lawg/schemas.py:249-253 | `limit` loads iff it is in 1..100 and `offset` iff it is at least 0; `None` is refused for both; an empty dict loads without inserting the declared defaults |
| SchemaFacts.RequiredStrLoaded | lawg/base/rest.py:121 | a required non-nullable string field is in the input as a string and is loaded unchanged |
| SchemaFacts.ProjectCreateNeedsNameAndNamespace | lawg/schemas.py:99-103 | a project create body loads only with a string name and a string namespace |
| SchemaFacts.CreateBodiesNeedTitles | lawg/schemas.py:154-290 | feed create bodies load only with a string name; event and insight create bodies load only with a string title |
| SchemaFacts.LoadExact | lawg/base/rest.py:121 | declared fields that hold every required one and each load to themselves load to the input itself |
| SchemaFacts.NullsLoad | lawg/schemas.py:175-180 | in an all-optional, all-nullable schema, any set of `None` fields loads unchanged |
| SchemaFacts.PatchBodiesAcceptNulls | lawg/schemas.py:175-331 | the feed, event and insight patch bodies accept any subset of their fields as `None` |
| SchemaFacts.InsightValueTakesBoth | lawg/schemas.py:318-322 | the nested insight value accepts `set` and `increment` together |
| SchemaFacts.ErrorEnvelopeRules | lawg/schemas.py:344-355 | the error envelope needs `success` reading as false and admits no unknown key; `{"success": false}` alone loads |
| SchemaFacts.SuccessEnvelopeRules | lawg/schemas.py:358-362 | the success envelope needs `success` reading as true and a dict `data`, which is passed through |
| Rest.Format | lawg/base/rest.py:142 | formatting succeeds iff every slot of the template has a slug; otherwise it raises `KeyError` naming a missing slot |
| Rest.FormatUsesOnlySlots | lawg/base/rest.py:142 | slugs that are not slots of the template do not affect the URL |
| Rest.FormatIdentity | lawg/base/rest.py:40-69 | filling every slot with its own `{name}` gives back the template text |
| Rest.FormatResolvesAll | lawg/base/rest.py:142 | with brace-free slug values, a well-formed template formats to a URL with no braces left |
| Rest.FormatAppend | lawg/base/rest.py:41-69 | formatting distributes over joined templates |
| Rest.FormatUnderProject | lawg/base/rest.py:35-69 | a URL under a project is the projects base, `/`, the namespace, then the rest |
| Rest.ProjectTemplatesSpelled | lawg/base/rest.py:40-44 | the create-project template is the projects base with no slot; the get, edit and delete templates are the base plus `/{namespace}`, with that one slot |
| Rest.FeedTemplatesSpelled | lawg/base/rest.py:54-57 | the feed templates spell `/{namespace}/feeds` and `/{namespace}/feeds/{feed}` under the projects base, with exactly those slots |
| Rest.EventsTemplateSpelled | lawg/base/rest.py:59-63 | the create-event and event-list templates spell `/{namespace}/feeds/{feed}/events`, with the slots `namespace` and `feed` |
| Rest.EventTemplateSpelled | lawg/base/rest.py:59-64 | the get, edit and delete event templates spell `/{namespace}/feeds/{feed}/events/{event_id}`, with those three slots |
| Rest.InsightsTemplateSpelled | lawg/base/rest.py:66-69 | the create-insight and insight-list templates spell `/{namespace}/insights` under the projects base, with the one slot `namespace` |
| Rest.InsightTemplateSpelled | lawg/base/rest.py:67-71 | the get, edit and delete insight templates spell `/{namespace}/insights/{insight_id}`, with those two slots |
| Rest.Strip | lawg/base/rest.py:113-119 | the stripped body holds exactly the keys whose value is not `UNDEFINED`, with their values |
| Rest.StripLift | lawg/base/rest.py:116-119 | stripping undoes lifting, and stripping is idempotent |
| Rest.LiftStrip | lawg/base/rest.py:116-119 | lifting undoes stripping iff no entry was `UNDEFINED` |
| Rest.PreparedBody | lawg/base/rest.py:103-126 | no body gives `None`; otherwise the body without its `UNDEFINED` entries is loaded: a failed load raises its error, an empty result raises the empty-body error, and any other result is the prepared body |
| Rest.PrepareBody | lawg/base/rest.py:103-126 | the copy loop over the body computes `PreparedBody` |
| Rest.AllUndefinedIsEmpty | lawg/base/rest.py:116-124 | a body whose every entry is `UNDEFINED`, under a schema with no required field, raises the empty-body error |
| Rest.PreparedBodyKeepsPresent | lawg/base/rest.py:116-121 | under RAISE the prepared body holds exactly the keys that were not `UNDEFINED` |
| Rest.PrepareUrl | lawg/base/rest.py:128-144 | without slugs the URL is the template text; otherwise the slugs are loaded: a failed load raises its error, and a loaded dict gives exactly what formatting the template with it gives |
| Rest.PreparedRequest | lawg/base/rest.py:146-161 | succeeds iff both the body and the URL prepare, giving the prepared URL and body; a body error is raised first, and once the body prepares, the URL's error is raised |
| Rest.Subscript | lawg/base/rest.py:187-188 | `v[key]` gives the entry, raises `KeyError` for a missing key of a dict, and raises `TypeError` for a non-dict |
| Rest.CodeTableRoundTrip | lawg/base/rest.py:190-203 | each specific exception kind has exactly one error code and back; every other code is the generic kind |
| Rest.EnvelopeError | lawg/base/rest.py:187-203 | an error envelope always raises, and an HTTP error carries the response status |
| Rest.FallbackError | lawg/base/rest.py:176-185 | a non-envelope reply raises the generic HTTP error, or, for 404, not-found carrying the body's message |
| Rest.ValidateResponseAsWritten | lawg/base/rest.py:163-203 | as written, passes exactly the 2xx replies |
| Rest.ValidateResponse | lawg/base/rest.py:163-203 | passes exactly the 2xx replies; any other reply except 404 raises an HTTP error carrying its status |
| Rest.EnvelopeErrorTyped | lawg/base/rest.py:187-203 | an envelope with an error detail raises the kind its code names, with its message and the response status |
| Rest.MissingErrorRaisesKeyError | lawg/base/rest.py:174-187 | a 500 reply `{"success": false}` raises `KeyError('error')` as written, and the generic HTTP error once `error` is required |
| Rest.ValidateResponseErrors | lawg/base/rest.py:170-203 | every non-2xx reply raises; HTTP errors carry the status; an envelope raises its typed error |
| Rest.LoadMany | lawg/base/rest.py:220 | a `many=True` load succeeds iff the value is a list whose every item loads; a non-list fails with `_schema`; the result holds each item's loaded dict at its index |
| Rest.LoadItems | lawg/base/rest.py:220 | succeeds iff every item loads; the result has the same length and holds the loaded items in order |
| Rest.PrepareResponse | lawg/base/rest.py:205-222 | validates first, with the corrected `ValidateResponse`; 204 or no schema gives `{}`; otherwise a failed envelope load raises its error, and a single-object schema gives the load of `data` or its error |
| Rest.ManyResponsesFail | lawg/base/rest.py:219-220 | with a `many=True` schema no reply other than 204 succeeds, since `data` must be a dict |
| Operations.Perform | lawg/asyncio/rest.py:55-68 | a request makes an HTTP call iff it prepares; the call carries the prepared URL and body; the result is the prepared response, validated with the corrected `ValidateResponse` |
| Operations.SentAs | lawg/asyncio/rest.py:55-68 | a request whose body and URL prepare to given values sends exactly them |
| Operations.CreateProjectRoute | lawg/asyncio/rest.py:76-87 | `create_project` POSTs to the projects URL, with no slugs and no slot, and loads one project |
| Operations.CreateProjectPayload | lawg/asyncio/rest.py:76-87 | its body is `{namespace, name}` from the arguments, all declared by the project create schema |
| Operations.FetchProjectRoute | lawg/asyncio/rest.py:89-99 | `fetch_project` GETs `/{namespace}` with no body; its one slug fills the one slot and is declared; it loads one project |
| Operations.EditProjectRoute | lawg/asyncio/rest.py:101-115 | `edit_project` PATCHes `/{namespace}`; its one slug fills the slot and is declared; it loads one project |
| Operations.EditProjectPayload | lawg/asyncio/rest.py:101-115 | its body is `{name}`, declared by the project patch schema |
| Operations.DeleteProjectRoute | lawg/asyncio/rest.py:117-125 | `delete_project` DELETEs `/{namespace}` with no body and no response schema; its slug fills the slot and is declared |
| Operations.CreateFeedRoute | lawg/asyncio/rest.py:129-151 | `create_feed` POSTs to `/{namespace}/feeds`; its slug fills the slot and is declared; it loads one feed |
| Operations.CreateFeedPayload | lawg/asyncio/rest.py:129-151 | its body is `{name, description, emoji}` from the arguments, all declared |
| Operations.EditFeedRoute | lawg/asyncio/rest.py:153-177 | `edit_feed` PATCHes `/{namespace}/feeds/{feed}`; the slugs fill the slots, but `feed` is not declared by the slug schema |
| Operations.EditFeedPayload | lawg/asyncio/rest.py:153-177 | its body has the keys name, description and emoji, all declared |
| Operations.DeleteFeedRoute | lawg/asyncio/rest.py:179-188 | `delete_feed` DELETEs `/{namespace}/feeds/{feed}` with no body and no response schema; `feed` is not declared by the slug schema |
| Operations.CreateEventRoute | lawg/asyncio/rest.py:192-224 | `create_event` POSTs to `/{namespace}/feeds/{feed}/events`; its slugs fill the slots and are declared; it loads one event; the body schema does not declare `metadata` |
| Operations.CreateEventPayload | lawg/asyncio/rest.py:192-224 | its body is the seven arguments title, description, emoji, tags, timestamp, notify and metadata |
| Operations.FetchEventRoute | lawg/asyncio/rest.py:226-238 | `fetch_event` GETs `/{namespace}/feeds/{feed}/events/{event_id}` with no body; `feed` is not declared by the slug schema |
| Operations.FetchEventsRoute | lawg/asyncio/rest.py:240-262 | `fetch_events` GETs `/{namespace}/feeds/{feed}/events` and loads a list of events; `feed` is not declared by the slug schema |
| Operations.FetchEventsPayload | lawg/asyncio/rest.py:240-262 | its body is `{limit, offset}` from the arguments, both declared |
| Operations.EditEventRoute | lawg/asyncio/rest.py:264-294 | `edit_event` PATCHes `/{namespace}/feeds/{feed}/events/{event_id}`; `feed` is not declared by the slug schema |
| Operations.EditEventPayload | lawg/asyncio/rest.py:264-294 | its body has the keys title, description, emoji, tags and timestamp, all declared |
| Operations.DeleteEventRoute | lawg/asyncio/rest.py:296-306 | `delete_event` DELETEs `/{namespace}/feeds/{feed}/events/{event_id}` with no body and no response schema; its slugs fill the slots and are declared |
| Operations.CreateInsightRoute | lawg/asyncio/rest.py:310-334 | `create_insight` POSTs to `/{namespace}/insights`; its slug fills the slot and is declared; it loads one insight; the body schema does not declare `description` |
| Operations.CreateInsightPayload | lawg/asyncio/rest.py:310-334 | its body is the arguments title, description, emoji and value |
| Operations.FetchInsightRoute | lawg/asyncio/rest.py:336-351 | `fetch_insight` GETs `/{namespace}/insights`, the list URL: its slugs are namespace and insight_id, both declared, but the only slot is `namespace` |
| Operations.FetchInsightsRoute | lawg/asyncio/rest.py:353-366 | `fetch_insights` GETs `/{namespace}/insights` with no body and loads a list of insights; its slug fills the slot and is declared |
| Operations.EditInsightRoute | lawg/asyncio/rest.py:368-394 | `edit_insight` PATCHes `/{namespace}/insights/{insight_id}`; its slugs fill the slots and are declared; it loads one insight |
| Operations.EditInsightPayload | lawg/asyncio/rest.py:368-394 | its body has the keys title, description, emoji and value, all declared |
| Operations.DeleteInsightRoute | lawg/asyncio/rest.py:396-409 | `delete_insight` DELETEs `/{namespace}/insights/{insight_id}` with no body; neither slug is declared by the schema it uses |
| Operations.CreateProjectBody | lawg/asyncio/rest.py:76-87 | a valid namespace and name prepare to the body `{namespace, name}` |
| Operations.CreateProjectSends | lawg/asyncio/rest.py:76-87 | `create_project` POSTs that body to the projects URL and returns the loaded project |
| Operations.CreateFeedBody | lawg/asyncio/rest.py:129-151 | a feed created with only a name prepares to a body that also holds `description` and `emoji` as `None` |
| Operations.FeedNameOnlyLoads | lawg/schemas.py:154-159 | helper of `CreateFeedBody`: a feed create body of a valid name, with `description` and `emoji` as `None`, loads unchanged |
| Operations.FeedsUrl | lawg/asyncio/rest.py:129-151 | the feeds URL of a valid namespace |
| Operations.CreateFeedKeepsNulls | lawg/asyncio/rest.py:129-151 | `create_feed` sends the omitted description and emoji as `None` |
| Operations.EditFeedNothingIsEmpty | lawg/asyncio/rest.py:153-177 | `edit_feed` without a field raises the empty-body error before any HTTP call |
| Operations.EditEventNothingIsEmpty | lawg/asyncio/rest.py:264-294 | `edit_event` without a field raises the empty-body error before any HTTP call |
| Operations.EditInsightNothingIsEmpty | lawg/asyncio/rest.py:368-394 | `edit_insight` without a field raises the empty-body error before any HTTP call |
| Operations.InsightUrl | lawg/asyncio/rest.py:368-394 | the URL of one insight, for a valid namespace and id |
| Operations.InsightSlugsLoad | lawg/asyncio/rest.py:336-351 | helper of `InsightUrl` and `FetchInsightUsesListUrl`: both insight slug schemas load a valid namespace and `insight_`-prefixed id unchanged |
| Operations.InsightSlugsFormat | lawg/base/rest.py:66-71 | helper of `InsightUrl` and `FetchInsightUsesListUrl`: the single-insight template fills to base/namespace/insights/id, and the list template to base/namespace/insights |
| Operations.EditInsightTitleBody | lawg/asyncio/rest.py:368-394 | a title of 1 to 32 characters, with every other field `UNDEFINED`, prepares to the body `{title}` |
| Operations.EditInsightSendsOnlyPassed | lawg/asyncio/rest.py:368-394 | `edit_insight` with only a title PATCHes a body holding only that title |
| Operations.SetValueLoads | lawg/schemas.py:318-331 | the nested insight value field loads `{set: x}` for a number `x` as itself |
| Operations.EditInsightValueBody | lawg/asyncio/rest.py:381-391 | a nested value `{set: x}` prepares to the body `{value: {set: x}}` |
| Operations.EditInsightForwardsValue | lawg/asyncio/rest.py:381-391 | `edit_insight` forwards the nested value unchanged |
| Operations.FetchInsightUsesListUrl | lawg/asyncio/rest.py:336-351 | `fetch_insight` GETs the list URL: the insight id never reaches the URL |
| Operations.FeedSlugMismatch | lawg/asyncio/rest.py:153-188 | `edit_feed` and `delete_feed` send the slug `feed` to schemas that declare `feed_name`, so they never reach the server |
| Operations.EventSlugMismatch | lawg/asyncio/rest.py:226-294 | `fetch_event`, `fetch_events` and `edit_event` never reach the server, for the same reason |
| Operations.FetchEventsDefaultsRefused | lawg/asyncio/rest.py:240-262 | `fetch_events` with the default `None` limit and offset fails validation on both |
| Operations.CreateEventRefusesMetadata | lawg/asyncio/rest.py:192-224 | `create_event` always sends `metadata`, which the body schema does not declare, so it never reaches the server |
| Operations.CreateInsightRefusesDescription | lawg/asyncio/rest.py:310-334 | `create_insight` always sends `description`, which its body schema does not declare |
| Operations.DeleteInsightWrongSchema | lawg/asyncio/rest.py:396-409 | `delete_insight` checks its slugs with the insight value schema, which rejects both of them |
| Operations.FetchInsightsNeverList | lawg/asyncio/rest.py:353-366 | `fetch_insights` never succeeds against a server that does not answer 204 |
| Operations.DeletesReturnNothing | lawg/asyncio/rest.py:117-125 | the request that `delete_project` and `delete_event` await yields `{}` on success; the methods themselves discard it and return `None` |
| Handler.LevelEmoji | lawg/handler.py:39-48 | the emoji of a standard level, the memo emoji otherwise, never empty |
| Handler.Prepared | lawg/handler.py:79-82 | the prepared attributes are the record's own plus the four annotations |
| Handler.PreparedFacts | lawg/handler.py:79-82 | preparing keeps present values, sets missing annotations to `None`, and is idempotent |
| Handler.LogRecord.constructor | lawg/handler.py:73-82 | a record holds the logging fields and its extra attributes |
| Handler.LogRecord.Prepare | lawg/handler.py:73-82 | the annotation loop leaves the attributes equal to `Prepared` of the old ones, and every annotation set |
| Handler.Choose | lawg/handler.py:123-136 | the record's truthy value wins, then the event's truthy value, then the fallback |
| Handler.EventOf | lawg/handler.py:115-121 | no event when `record.event` is falsy; an unknown or empty event raises the undefined-event error; an unhashable name raises `TypeError` |
| Handler.FormatLog | lawg/handler.py:105-142 | succeeds iff the event resolves, always when there is no event; the result has exactly the keys title, description and emoji, with a truthy title and emoji |
| Handler.RecordValuesWin | lawg/handler.py:123-134 | a record's own truthy values are used whatever the event defines |
| Handler.EventFillsIn | lawg/handler.py:115-136 | a registered event supplies what the record leaves falsy |
| Handler.PlainRecordFallbacks | lawg/handler.py:123-136 | with no event and no attributes: `"name (LEVEL)"`, the message, and the level's emoji |
| Handler.FormatRecord | lawg/handler.py:90-99 | preparing then formatting a record logged without extra attributes never fails |
| Facades.AfterDelete | lawg/asyncio/insight.py:33-38 | a delete calls the REST layer iff the entity is live; a deleted entity raises the already-deleted error; the entity ends up deleted iff it already was or the call succeeded |
| Facades.DeleteIsOneShot | lawg/asyncio/insight.py:33-38 | after a successful delete, every further delete raises without calling the REST layer |
| Facades.FailedDeleteRetries | lawg/asyncio/insight.py:37-38 | a delete whose call raised leaves the entity live, so the next delete calls again |
| Facades.AfterEdit | lawg/asyncio/event.py:31-33 | the cache is overwritten from the reply iff it holds title, description and emoji; a raised exception leaves it as it was |
| Facades.EditStopsAtMissingKey | lawg/asyncio/event.py:31-33 | a reply without `description` updates the title, then raises `KeyError`, leaving the cache half-updated |
| Facades.EditWithoutTitleKeepsCache | lawg/asyncio/event.py:31 | a reply without `title` raises `KeyError` and changes nothing |
| Facades.Insight.constructor | lawg/base/insight.py:26-51 | an insight holds its fields and starts live |
| Facades.Insight.SendValue | lawg/asyncio/insight.py:15-31 | sends `{op: amount}` and stores the returned value; on an exception the value is unchanged |
| Facades.Insight.Set | lawg/asyncio/insight.py:15-22 | sends `{"set": v}` and stores the server's value; nothing else changes (likewise `Insight.set`, lawg/syncio/insight.py:14-21) |
| Facades.Insight.Increment | lawg/asyncio/insight.py:24-31 | sends `{"increment": v}` and stores the server's value, not the old value plus `v` (likewise lawg/syncio/insight.py:23-30) |
| Facades.Insight.Delete | lawg/asyncio/insight.py:33-38 | follows `AfterDelete` with "insight": a deleted insight raises with no call; otherwise it sends the delete and becomes deleted once the call returns (likewise lawg/syncio/insight.py:32-37) |
| Facades.DeleteInsightTwice | lawg/asyncio/insight.py:33-38 | deleting a live insight twice makes one call; the second delete raises the already-deleted error |
| Facades.Event.constructor | lawg/base/event.py:30-52 | an event holds its fields and starts live |
| Facades.Event.Edit | lawg/asyncio/event.py:16-33 | forwards the arguments (unspecified ones as `UNDEFINED`), then updates the cache as `AfterEdit` says; ids, feed and deletion state are unchanged |
| Facades.Event.Delete | lawg/asyncio/event.py:35-40 | follows `AfterDelete` with the default "log" message |
| Facades.EventEditNeverSent | lawg/asyncio/event.py:16-33 | every `edit()` of an event fails before its HTTP call, whatever its arguments, since `edit_event` passes a slug its schema does not declare; the cache stays as it was |
| Facades.EventEditNothingFails | lawg/asyncio/event.py:16-29 | `edit()` with no argument raises the empty-body error without any HTTP call and leaves the cache unchanged |
| Facades.Log.constructor | lawg/base/log.py:18-24 | a log holds its address and starts live |
| Facades.Log.Edit | lawg/asyncio/log.py:16-33 | as for an event, and a deleted log is edited too |
| Facades.Log.Delete | lawg/asyncio/log.py:35-40 | follows `AfterDelete` with the default "log" message |
| Facades.Project.constructor | lawg/base/project.py:18-27 | a project holds its namespace and starts live |
| Facades.Project.Feed | lawg/syncio/project.py:22-23 | the feed handle is bound to this project's namespace |
| Facades.Project.Log | lawg/syncio/project.py:25-26 | the log handle is bound to this project's namespace |
| Facades.Project.Edit | lawg/syncio/project.py:30-32 | once the call returns, the name becomes the argument, not a server value; an exception leaves it unchanged |
| Facades.Project.Delete | lawg/syncio/project.py:34-39 | follows `AfterDelete` with "project"; the namespace never changes |

## Left out

- HTTP transport, `async`/`await`, headers and the API key: the server is a function parameter, and the entity objects receive the REST layer's reply as a parameter.
- The `LAWG_DEV_API` environment override (lawg/base/rest.py:33): the base URL is the default `https://api.lawg.dev`.
- Decoding of response bodies: a body is a JSON value. A body that is not JSON is not modelled.
- Floating-point rounding: JSON numbers are reals. `fields.Integer` truncates a non-integral number toward zero, as Python's `int` does.
- `fields.DateTime` parsing: any non-empty string is accepted as a timestamp.
- String length is counted in code points; grapheme clusters are not modelled.
- marshmallow error messages: only the set of failing field names is kept. A `many=True` load keeps no per-index errors, and the order in which a `Union` tries its fields is not modelled.
- Numeric strings: marshmallow's coercion of numeric strings into numbers is not modelled; numeric fields accept JSON numbers only.
- Rest.Render: a non-string slug value renders as the empty string. No slug schema in the model loads a non-string slug (`LoadedStrings`).
- `record.getMessage()` %-formatting: a record carries its message already formatted.
- `Formatter.format`, `Handler.emit` and the websocket schemas (lawg/handler.py:84-103, 165-175): `emit` only prints, and `format` builds a `LOG_CREATE` payload that the `WebsocketEvent` schema does not accept. `FormatRecord` models only the `prepare` and `format_log` steps of `format`.
- The managers and clients (`lawg/base/*_manager.py`, `lawg/syncio/*_manager.py`, `lawg/asyncio/client.py`, `lawg/asyncio/feed.py`): they only forward arguments.
- The synchronous client, REST layer, room, feed and log (`lawg/syncio/client.py`, `lawg/syncio/rest.py`, `lawg/syncio/room.py`, `lawg/syncio/feed.py`, `lawg/syncio/log.py`) and the `basic.py` clients: they import names that do not exist.
- The truthiness of a `DataWithSchema`, which `prepare_url` tests: the model treats a pair as present.
- Entity calls that no file defines: the asynchronous `Insight` and `Log` call `client.rest._edit_insight`, `_delete_insight`, `_edit_log` and `_delete_log` (lawg/asyncio/insight.py:16-37, lawg/asyncio/log.py:22-39), which `lawg/asyncio/rest.py` does not define. The synchronous `Insight` and `Project` call `_edit_insight`, `_delete_insight`, `_edit_project` and `_delete_project` on the synchronous client itself (lawg/syncio/insight.py:15-36, lawg/syncio/project.py:31-38), and no file defines those either. These calls are recorded as `Call` values and not connected to `Operations`.
- Rest.PrepareResponse: validates with the corrected `ValidateResponse`, not `ValidateResponseAsWritten`. A non-2xx envelope without `error` raises the generic HTTP error here, where the source raises `KeyError`. `Operations.Perform` and every operation lemma built on it inherit this.
- Schemas.Check: the namespace rule of `ProjectNamespaceField` checks the corrected `NamespaceMatches`, not `NamespaceMatchesAsWritten`. A namespace with one trailing newline is refused here and accepted by the source. Every schema with a namespace field inherits this.

## Findings

| source | as written | input that shows it | evidently intended | confidence | as-written member | corrected member |
|---|---|---|---|---|---|---|
| lawg/schemas.py:59 | `validate.Regexp(r"^[a-z0-9_-]+$")` runs `re.match`, where `$` also matches before a final newline | the namespace `"acme\n"` passes | only `[a-z0-9_-]+` over the whole string | not executed | Schemas.NamespaceMatchesAsWritten, Schemas.NamespaceTrailingNewline | Schemas.NamespaceMatches |
| lawg/schemas.py:355 | `APIErrorSchema.error` is not required, so an envelope without it loads, and then `data["error"]["code"]` raises `KeyError` | a 500 reply with body `{"success": false}` | a missing error detail is refused by the envelope and falls back to the generic HTTP error | not executed | Rest.ValidateResponseAsWritten, Rest.MissingErrorRaisesKeyError | Rest.ValidateResponse |
