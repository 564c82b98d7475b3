/**
 * The entity objects the clients hand out (lawg/asyncio/insight.py,
 * lawg/syncio/insight.py, lawg/asyncio/event.py, lawg/asyncio/log.py,
 * lawg/syncio/project.py): each caches a few fields, makes one REST call
 * per operation, updates its cache from the reply, and moves once from
 * live to deleted.
 *
 * The REST layer is not called here: each operation records the `Call` it
 * makes and takes the layer's `reply` (the returned JSON, or the exception
 * it raised) as a parameter.
 */
module Facades {
  import opened Wrappers
  import opened Json
  import opened Exceptions
  import Rest
  import Operations

  /** A call an entity makes to its client's REST layer. */
  datatype Call =
    | EditInsight(projectNamespace: string, insightId: string, value: map<string, Value>)
    | DeleteInsight(projectNamespace: string, insightId: string)
    | EditEvent(project: string, feed: string, eventId: string, title: Field, description: Field, emoji: Field)
    | DeleteEvent(project: string, feed: string, eventId: string)
    | EditLog(projectNamespace: string, feedName: string, logId: string, title: Field, description: Field,
              emoji: Field)
    | DeleteLog(projectNamespace: string, feedName: string, logId: string)
    | EditProject(projectNamespace: string, projectName: string)
    | DeleteProject(projectNamespace: string)

  /** `data[key]` on what the REST layer returned; an exception it raised
      propagates unchanged. */
  function Fetched(reply: Result<Value, Error>, key: string): Result<Value, Error> {
    if reply.Err? then Err(reply.error) else Rest.Subscript(reply.value, key)
  }

  // ---------------------------------------------------------------------
  // Deletion: the shared live -> deleted state machine
  // ---------------------------------------------------------------------

  /** What a `delete` does to an entity: whether it called the REST layer,
      whether the entity is deleted afterwards, and what it returned. */
  datatype Deletion = Deletion(called: bool, isDeleted: bool, result: Result<(), Error>)

  /** `if self.is_deleted: raise LawgAlreadyDeleted(resource)`, then the
      REST call, then `self.is_deleted = True` once the call returned. */
  function AfterDelete(isDeleted: bool, resource: string, reply: Result<Value, Error>): (d: Deletion)
    ensures d.called <==> !isDeleted
    ensures isDeleted ==> d.isDeleted && d.result == Err(NewAlreadyDeleted(resource))
    ensures d.result.Ok? <==> !isDeleted && reply.Ok?
    ensures d.isDeleted <==> isDeleted || reply.Ok?
    ensures !isDeleted && reply.Err? ==> d.result == Err(reply.error)
  {
    if isDeleted then Deletion(false, true, Err(NewAlreadyDeleted(resource)))
    else if reply.Err? then Deletion(true, false, Err(reply.error))
    else Deletion(true, true, Ok(()))
  }

  /** Deletion happens at most once: after a successful delete, every
      further delete raises the already-deleted error without reaching the
      REST layer, whatever it would have replied. */
  lemma DeleteIsOneShot(isDeleted: bool, resource: string, first: Result<Value, Error>, second: Result<Value, Error>)
    requires AfterDelete(isDeleted, resource, first).result.Ok?
    ensures !isDeleted
    ensures var again := AfterDelete(AfterDelete(isDeleted, resource, first).isDeleted, resource, second);
      !again.called && again.isDeleted && again.result == Err(NewAlreadyDeleted(resource))
  {
  }

  /** A failed REST call leaves a live entity live, so the delete can be
      retried. */
  lemma FailedDeleteRetries(resource: string, first: Result<Value, Error>, second: Result<Value, Error>)
    requires first.Err?
    ensures var again := AfterDelete(AfterDelete(false, resource, first).isDeleted, resource, second);
      again.called && again == AfterDelete(false, resource, second)
  {
  }

  // ---------------------------------------------------------------------
  // Editing: the cached title, description and emoji
  // ---------------------------------------------------------------------

  /** The cached fields an event or a log shows. */
  datatype Shown = Shown(title: Value, description: Value, emoji: Value)

  /** What an `edit` leaves in the cache, and what it returned. */
  datatype Edited = Edited(shown: Shown, result: Result<(), Error>)

  /** The three assignments `self.title = data["title"]`,
      `self.description = data["description"]`, `self.emoji = data["emoji"]`,
      each one reached only when the lookups before it succeeded. */
  function AfterEdit(before: Shown, reply: Result<Value, Error>): (e: Edited)
    ensures e.result.Ok? <==> reply.Ok? && reply.value.Obj?
                              && {"title", "description", "emoji"} <= reply.value.fields.Keys
    ensures e.result.Ok? ==>
      var m := reply.value.fields; e.shown == Shown(m["title"], m["description"], m["emoji"])
    ensures reply.Err? ==> e == Edited(before, Err(reply.error))
    ensures reply.Ok? && !reply.value.Obj? ==> e == Edited(before, Err(Type))
    ensures e.result.Err? ==> e.shown.emoji == before.emoji
  {
    var title := Fetched(reply, "title");
    if title.Err? then Edited(before, Err(title.error))
    else
      var description := Fetched(reply, "description");
      if description.Err? then Edited(before.(title := title.value), Err(description.error))
      else
        var emoji := Fetched(reply, "emoji");
        if emoji.Err? then Edited(Shown(title.value, description.value, before.emoji), Err(emoji.error))
        else Edited(Shown(title.value, description.value, emoji.value), Ok(()))
  }

  /** A reply that lacks a field updates the fields looked up before it
      and raises `KeyError` for it: the cache is left half-updated. */
  lemma EditStopsAtMissingKey(before: Shown, m: map<string, Value>)
    requires "title" in m && "description" !in m
    ensures AfterEdit(before, Ok(Obj(m))) == Edited(before.(title := m["title"]), Err(Key("description")))
  {
  }

  /** A reply without a title changes nothing. */
  lemma EditWithoutTitleKeepsCache(before: Shown, m: map<string, Value>)
    requires "title" !in m
    ensures AfterEdit(before, Ok(Obj(m))) == Edited(before, Err(Key("title")))
  {
  }

  // ---------------------------------------------------------------------
  // Insight
  // ---------------------------------------------------------------------

  /** `AsyncInsight` and its synchronous twin `Insight`, which differ only
      in awaiting the REST call. */
  class Insight {
    const projectNamespace: string
    const id: string
    const title: string
    const description: Value
    const emoji: Value
    /** ISO 8601 timestamps, carried as text. */
    const updatedAt: string
    const createdAt: string
    var value: Value
    var isDeleted: bool

    /** `BaseInsight.__init__`: every insight starts live. */
    constructor(projectNamespace: string, id: string, title: string, description: Value, value: Value,
                emoji: Value, updatedAt: string, createdAt: string)
      ensures this.projectNamespace == projectNamespace && this.id == id && this.title == title
      ensures this.description == description && this.emoji == emoji
      ensures this.updatedAt == updatedAt && this.createdAt == createdAt
      ensures this.value == value && !isDeleted
    {
      this.projectNamespace := projectNamespace;
      this.id := id;
      this.title := title;
      this.description := description;
      this.value := value;
      this.emoji := emoji;
      this.updatedAt := updatedAt;
      this.createdAt := createdAt;
      isDeleted := false;
    }

    /** Sends `{op: amount}` and caches the value the server returns:
        the shared body of `set` and `increment`. Neither consults
        `is_deleted`. */
    method SendValue(op: string, amount: Value, reply: Result<Value, Error>) returns (call: Call, r: Result<(), Error>)
      modifies this`value
      ensures call == EditInsight(projectNamespace, id, map[op := amount])
      ensures r.Ok? <==> Fetched(reply, "value").Ok?
      ensures r.Ok? ==> value == Fetched(reply, "value").value
      ensures r.Err? ==> r.error == Fetched(reply, "value").error && value == old(value)
    {
      call := EditInsight(projectNamespace, id, map[op := amount]);
      var returned := Fetched(reply, "value");
      if returned.Err? {
        return call, Err(returned.error);
      }
      value := returned.value;
      r := Ok(());
    }

    /** `set(value)`: the cached value becomes what the server returns. */
    method Set(amount: Value, reply: Result<Value, Error>) returns (call: Call, r: Result<(), Error>)
      modifies this`value
      ensures call == EditInsight(projectNamespace, id, map["set" := amount])
      ensures r.Ok? <==> reply.Ok? && reply.value.Obj? && "value" in reply.value.fields
      ensures r.Ok? ==> value == reply.value.fields["value"]
      ensures reply.Err? ==> r == Err(reply.error)
      ensures r.Err? ==> value == old(value)
    {
      call, r := SendValue("set", amount, reply);
    }

    /** `increment(value)`: the cached value becomes what the server
        returns, which need not be the old value plus the amount. */
    method Increment(amount: Value, reply: Result<Value, Error>) returns (call: Call, r: Result<(), Error>)
      modifies this`value
      ensures call == EditInsight(projectNamespace, id, map["increment" := amount])
      ensures r.Ok? <==> reply.Ok? && reply.value.Obj? && "value" in reply.value.fields
      ensures r.Ok? ==> value == reply.value.fields["value"]
      ensures reply.Err? ==> r == Err(reply.error)
      ensures r.Err? ==> value == old(value)
    {
      call, r := SendValue("increment", amount, reply);
    }

    /** `delete()`: raises `AlreadyDeleted("insight")` on a deleted insight
        without calling the REST layer. */
    method Delete(reply: Result<Value, Error>) returns (call: Option<Call>, r: Result<(), Error>)
      modifies this`isDeleted
      ensures var d := AfterDelete(old(isDeleted), "insight", reply);
        r == d.result && isDeleted == d.isDeleted && (call.Some? <==> d.called)
      ensures call.Some? ==> call.value == DeleteInsight(projectNamespace, id)
    {
      if isDeleted {
        return None, Err(NewAlreadyDeleted("insight"));
      }
      call := Some(DeleteInsight(projectNamespace, id));
      if reply.Err? {
        return call, Err(reply.error);
      }
      isDeleted := true;
      r := Ok(());
    }
  }

  // ---------------------------------------------------------------------
  // Event and log
  // ---------------------------------------------------------------------

  /** `AsyncEvent`; `project` is the namespace of the client it came from. */
  class Event {
    const project: string
    const feed: string
    const id: string
    const projectId: string
    const feedId: string
    var title: Value
    var description: Value
    var emoji: Value
    var isDeleted: bool

    /** `BaseEvent.__init__`: every event starts live. */
    constructor(project: string, feed: string, id: string, projectId: string, feedId: string, title: Value,
                description: Value, emoji: Value)
      ensures this.project == project && this.feed == feed && this.id == id
      ensures this.projectId == projectId && this.feedId == feedId
      ensures Cached() == Shown(title, description, emoji) && !isDeleted
    {
      this.project := project;
      this.feed := feed;
      this.id := id;
      this.projectId := projectId;
      this.feedId := feedId;
      this.title := title;
      this.description := description;
      this.emoji := emoji;
      isDeleted := false;
    }

    function Cached(): Shown
      reads this
    {
      Shown(title, description, emoji)
    }

    /** `edit(title, description, emoji)`: the arguments left out are sent
        as undefined, so they do not reach the request body; the cache is
        then overwritten from the reply. Does not consult `is_deleted`. */
    method Edit(title: Field, description: Field, emoji: Field, reply: Result<Value, Error>)
      returns (call: Call, r: Result<(), Error>)
      modifies this`title, this`description, this`emoji
      ensures call == EditEvent(project, feed, id, title, description, emoji)
      ensures Cached() == AfterEdit(old(Cached()), reply).shown
      ensures r == AfterEdit(old(Cached()), reply).result
    {
      call := EditEvent(project, feed, id, title, description, emoji);
      var t := Fetched(reply, "title");
      if t.Err? {
        return call, Err(t.error);
      }
      this.title := t.value;
      var d := Fetched(reply, "description");
      if d.Err? {
        return call, Err(d.error);
      }
      this.description := d.value;
      var e := Fetched(reply, "emoji");
      if e.Err? {
        return call, Err(e.error);
      }
      this.emoji := e.value;
      r := Ok(());
    }

    /** `delete()`: the already-deleted error takes its default, "log". */
    method Delete(reply: Result<Value, Error>) returns (call: Option<Call>, r: Result<(), Error>)
      modifies this`isDeleted
      ensures var d := AfterDelete(old(isDeleted), "log", reply);
        r == d.result && isDeleted == d.isDeleted && (call.Some? <==> d.called)
      ensures call.Some? ==> call.value == DeleteEvent(project, feed, id)
    {
      if isDeleted {
        return None, Err(NewAlreadyDeleted());
      }
      call := Some(DeleteEvent(project, feed, id));
      if reply.Err? {
        return call, Err(reply.error);
      }
      isDeleted := true;
      r := Ok(());
    }
  }

  /** The request an event's call makes through the asynchronous REST
      layer, whose `edit_event` and `delete_event` it names. */
  function EventRequest(c: Call): (spec: Operations.RequestSpec)
    requires c.EditEvent? || c.DeleteEvent?
  {
    if c.EditEvent? then Operations.EditEvent(Str(c.project), Str(c.feed), Str(c.eventId), c.title, c.description, c.emoji)
    else Operations.DeleteEvent(Str(c.project), Str(c.feed), Str(c.eventId))
  }

  /** `edit()` with no arguments never reaches the server: the REST layer
      raises the empty-body error, and the event's cache stays as it was. */
  lemma EventEditNothingFails(project: string, feed: string, id: string, server: Operations.HttpCall -> Rest.Response,
                              before: Shown)
    ensures var x := Operations.Perform(EventRequest(EditEvent(project, feed, id, Unset, Unset, Unset)), server);
      x == Operations.Exchange(None, Err(NewEmptyBody()))
      && AfterEdit(before, x.result) == Edited(before, Err(NewEmptyBody()))
  {
    Operations.EditEventNothingIsEmpty(Str(project), Str(feed), Str(id), server);
  }

  /** No event edit reaches the server: `edit_event` passes the slug
      `feed` where its slug schema declares `feed_name`, so preparing the
      request always fails, and the event's cache stays as it was. */
  lemma EventEditNeverSent(project: string, feed: string, id: string, title: Field, description: Field,
                           emoji: Field, server: Operations.HttpCall -> Rest.Response, before: Shown)
    ensures var x := Operations.Perform(EventRequest(EditEvent(project, feed, id, title, description, emoji)), server);
      x.call.None? && x.result.Err? && AfterEdit(before, x.result) == Edited(before, Err(x.result.error))
  {
    Operations.EventSlugMismatch(Str(project), Str(feed), Str(id), Null, Null, title, description, emoji, Unset,
                                 Unset, server);
  }

  /** `AsyncLog`. Its base class sets neither a feed name nor `is_deleted`;
      the model gives it the feed name it is addressed by and starts it
      live, like every other entity. */
  class Log {
    const projectNamespace: string
    const feedName: string
    const id: string
    var title: Value
    var description: Value
    var emoji: Value
    var isDeleted: bool

    constructor(projectNamespace: string, feedName: string, id: string)
      ensures this.projectNamespace == projectNamespace && this.feedName == feedName && this.id == id
      ensures Cached() == Shown(Null, Null, Null) && !isDeleted
    {
      this.projectNamespace := projectNamespace;
      this.feedName := feedName;
      this.id := id;
      title := Null;
      description := Null;
      emoji := Null;
      isDeleted := false;
    }

    function Cached(): Shown
      reads this
    {
      Shown(title, description, emoji)
    }

    /** `edit(title, description, emoji)`: as for an event; it edits a
        deleted log too. */
    method Edit(title: Field, description: Field, emoji: Field, reply: Result<Value, Error>)
      returns (call: Call, r: Result<(), Error>)
      modifies this`title, this`description, this`emoji
      ensures call == EditLog(projectNamespace, feedName, id, title, description, emoji)
      ensures Cached() == AfterEdit(old(Cached()), reply).shown
      ensures r == AfterEdit(old(Cached()), reply).result
    {
      call := EditLog(projectNamespace, feedName, id, title, description, emoji);
      var t := Fetched(reply, "title");
      if t.Err? {
        return call, Err(t.error);
      }
      this.title := t.value;
      var d := Fetched(reply, "description");
      if d.Err? {
        return call, Err(d.error);
      }
      this.description := d.value;
      var e := Fetched(reply, "emoji");
      if e.Err? {
        return call, Err(e.error);
      }
      this.emoji := e.value;
      r := Ok(());
    }

    /** `delete()`: `LawgAlreadyDeleted()`, whose message names a log. */
    method Delete(reply: Result<Value, Error>) returns (call: Option<Call>, r: Result<(), Error>)
      modifies this`isDeleted
      ensures var d := AfterDelete(old(isDeleted), "log", reply);
        r == d.result && isDeleted == d.isDeleted && (call.Some? <==> d.called)
      ensures call.Some? ==> call.value == DeleteLog(projectNamespace, feedName, id)
    {
      if isDeleted {
        return None, Err(NewAlreadyDeleted());
      }
      call := Some(DeleteLog(projectNamespace, feedName, id));
      if reply.Err? {
        return call, Err(reply.error);
      }
      isDeleted := true;
      r := Ok(());
    }
  }

  // ---------------------------------------------------------------------
  // Project
  // ---------------------------------------------------------------------

  /** The handle `Project.feed` returns. */
  datatype FeedManager = FeedManager(projectNamespace: string, feedName: string)

  /** The handle `Project.log` returns. */
  datatype LogManager = LogManager(projectNamespace: string, feedName: string, id: string)

  /** The synchronous `Project`. Its base class sets no name; `name` is
      `None` until an edit sets it. */
  class Project {
    const namespace: string
    var name: Option<string>
    var isDeleted: bool

    /** `BaseProject.__init__`: every project starts live. */
    constructor(namespace: string)
      ensures this.namespace == namespace && name == None && !isDeleted
    {
      this.namespace := namespace;
      name := None;
      isDeleted := false;
    }

    /** `feed(name)`: a feed handle bound to this project. */
    function Feed(feedName: string): (m: FeedManager)
      ensures m.projectNamespace == namespace && m.feedName == feedName
    {
      FeedManager(namespace, feedName)
    }

    /** `log(feed_name, log_id)`: a log handle bound to this project. */
    function Log(feedName: string, logId: string): (m: LogManager)
      ensures m.projectNamespace == namespace && m.feedName == feedName && m.id == logId
    {
      LogManager(namespace, feedName, logId)
    }

    /** `edit(name)`: the cached name becomes the argument, not anything
        the server returned; an exception from the call leaves it as it
        was. Does not consult `is_deleted`. */
    method Edit(newName: string, reply: Result<Value, Error>) returns (call: Call, r: Result<(), Error>)
      modifies this`name
      ensures call == EditProject(namespace, newName)
      ensures reply.Ok? ==> r == Ok(()) && name == Some(newName)
      ensures reply.Err? ==> r == Err(reply.error) && name == old(name)
    {
      call := EditProject(namespace, newName);
      if reply.Err? {
        return call, Err(reply.error);
      }
      name := Some(newName);
      r := Ok(());
    }

    /** `delete()`: raises `AlreadyDeleted("project")` on a deleted project
        without calling the client; the namespace never changes. */
    method Delete(reply: Result<Value, Error>) returns (call: Option<Call>, r: Result<(), Error>)
      modifies this`isDeleted
      ensures var d := AfterDelete(old(isDeleted), "project", reply);
        r == d.result && isDeleted == d.isDeleted && (call.Some? <==> d.called)
      ensures call.Some? ==> call.value == DeleteProject(namespace)
    {
      if isDeleted {
        return None, Err(NewAlreadyDeleted("project"));
      }
      call := Some(DeleteProject(namespace));
      if reply.Err? {
        return call, Err(reply.error);
      }
      isDeleted := true;
      r := Ok(());
    }
  }

  /** Deleting an insight twice: the second call raises without reaching
      the REST layer, whatever the first reply was once it succeeded. */
  method DeleteInsightTwice(insight: Insight, first: Result<Value, Error>, second: Result<Value, Error>)
    returns (calls: seq<Option<Call>>, r: Result<(), Error>)
    requires !insight.isDeleted && first.Ok?
    modifies insight`isDeleted
    ensures calls == [Some(DeleteInsight(insight.projectNamespace, insight.id)), None]
    ensures r == Err(NewAlreadyDeleted("insight")) && insight.isDeleted
  {
    var c1, r1 := insight.Delete(first);
    var c2, r2 := insight.Delete(second);
    calls := [c1, c2];
    r := r2;
  }
}
