/**
 * The logging formatter (lawg/handler.py): `prepare` fills the four lawg
 * attributes of a log record, and `format_log` picks the title,
 * description and emoji of the lawg log by precedence: the record's own
 * value, then the registered event's, then a fallback.
 */
module Handler {
  import opened Wrappers
  import opened Json
  import opened Exceptions

  /** `logging.DEBUG` .. `logging.CRITICAL`. */
  const DEBUG := 10
  const INFO := 20
  const WARNING := 30
  const ERROR := 40
  const CRITICAL := 50

  /** U+1F4DD MEMO. */
  const EMOJI_DEFAULT := "\U{1F4DD}"

  /** The emoji for each standard level. */
  const EMOJI_MAP: map<int, string> := map[
    DEBUG := "\U{1F50D}",              // magnifying glass
    INFO := EMOJI_DEFAULT,
    WARNING := "\U{26A0}\U{FE0F}",     // warning sign
    ERROR := "\U{274C}",               // cross mark
    CRITICAL := "\U{1F6A8}"]           // police light

  /** `EMOJI_MAP.get(levelno, EMOJI_DEFAULT)`. */
  function LevelEmoji(levelno: int): (e: string)
    ensures e != ""
    ensures levelno !in {DEBUG, INFO, WARNING, ERROR, CRITICAL} ==> e == EMOJI_DEFAULT
    ensures levelno in EMOJI_MAP ==> e == EMOJI_MAP[levelno]
  {
    if levelno in EMOJI_MAP then EMOJI_MAP[levelno] else EMOJI_DEFAULT
  }

  /** The attributes `LogRecord` annotates, in declaration order. */
  const Annotations: seq<string> := ["event", "title", "description", "emoji"]

  /** A record's extra attributes once prepared: the ones it had, plus
      `None` for each annotated attribute it lacked. */
  function Prepared(attrs: map<string, Value>): (r: map<string, Value>)
    ensures r.Keys == attrs.Keys + {"event", "title", "description", "emoji"}
  {
    map k | k in attrs.Keys + {"event", "title", "description", "emoji"} :: if k in attrs then attrs[k] else Null
  }

  /** Preparing keeps every present value, sets the missing annotated ones
      to `None`, and is idempotent. */
  lemma PreparedFacts(attrs: map<string, Value>)
    ensures forall k | k in attrs :: Prepared(attrs)[k] == attrs[k]
    ensures forall a | a in Annotations && a !in attrs :: Prepared(attrs)[a] == Null
    ensures Prepared(Prepared(attrs)) == Prepared(attrs)
  {
    assert Prepared(Prepared(attrs)).Keys == Prepared(attrs).Keys;
  }

  /** A log record: the logging fields `format_log` reads and the extra
      attributes that `extra=` put on it. */
  class LogRecord {
    const name: string
    const levelname: string
    const levelno: int
    /** `record.getMessage()`. */
    const message: string
    var attrs: map<string, Value>

    constructor(name: string, levelname: string, levelno: int, message: string, extra: map<string, Value>)
      ensures this.name == name && this.levelname == levelname && this.levelno == levelno
      ensures this.message == message && attrs == extra
    {
      this.name := name;
      this.levelname := levelname;
      this.levelno := levelno;
      this.message := message;
      attrs := extra;
    }

    /** Every annotated attribute is set. */
    predicate Ready()
      reads this
    {
      forall a | a in Annotations :: a in attrs
    }

    /** `Formatter.prepare`: for each annotated attribute,
        `record.__dict__[attr] = record.__dict__.get(attr, None)`. */
    method Prepare()
      modifies this`attrs
      ensures attrs == Prepared(old(attrs))
      ensures Ready()
    {
      var i := 0;
      while i < |Annotations|
        invariant 0 <= i <= |Annotations|
        invariant attrs.Keys == old(attrs).Keys + set j | 0 <= j < i :: Annotations[j]
        invariant forall k | k in old(attrs) :: attrs[k] == old(attrs)[k]
        invariant forall k | k in attrs && k !in old(attrs) :: attrs[k] == Null
      {
        var a := Annotations[i];
        attrs := attrs[a := if a in attrs then attrs[a] else Null];
        i := i + 1;
      }
      assert (set j | 0 <= j < 4 :: Annotations[j]) == {"event", "title", "description", "emoji"} by {
        assert Annotations[0] == "event" && Annotations[1] == "title";
        assert Annotations[2] == "description" && Annotations[3] == "emoji";
      }
      assert attrs.Keys == Prepared(old(attrs)).Keys;
    }

    /** What `format_log` reads of a prepared record. */
    function View(): RecordView
      reads this
      requires Ready()
    {
      RecordView(name, levelname, levelno, message, attrs["event"], attrs["title"], attrs["description"],
                 attrs["emoji"])
    }
  }

  /** A prepared record as `format_log` sees it. */
  datatype RecordView = RecordView(
    name: string, levelname: string, levelno: int, message: string,
    event: Value, title: Value, description: Value, emoji: Value)

  /** A registered event: its optional title, description and emoji. */
  type EventDef = map<string, Value>

  /** `event.get(key)`. */
  function Lookup(e: EventDef, key: string): Value {
    if key in e then e[key] else Null
  }

  /** The precedence rule: the record's value if truthy, else the event's
      if truthy, else the fallback. */
  function Choose(own: Value, fromEvent: Value, fallback: Value): (v: Value)
    ensures Truthy(own) ==> v == own
    ensures !Truthy(own) && Truthy(fromEvent) ==> v == fromEvent
    ensures !Truthy(own) && !Truthy(fromEvent) ==> v == fallback
    ensures Truthy(fallback) ==> Truthy(v)
  {
    if Truthy(own) then own else if Truthy(fromEvent) then fromEvent else fallback
  }

  /** The event a record names: none when `record.event` is falsy; an
      unhashable name raises `TypeError`; an unknown name or an empty event
      raises the undefined-event error naming it. */
  function EventOf(events: map<string, EventDef>, event: Value): (r: Result<EventDef, Error>)
    ensures !Truthy(event) ==> r == Ok(map[])
    ensures Truthy(event) && (event.Arr? || event.Obj?) ==> r == Err(Type)
    ensures Truthy(event) && event.Str? && (event.s !in events || events[event.s] == map[]) ==>
      r == Err(NewEventUndefined(event))
    ensures Truthy(event) && r.Ok? ==> event.Str? && event.s in events && r.value == events[event.s] && r.value != map[]
  {
    if !Truthy(event) then Ok(map[])
    else if event.Arr? || event.Obj? then Err(Type)
    else if event.Str? && event.s in events && events[event.s] != map[] then Ok(events[event.s])
    else Err(NewEventUndefined(event))
  }

  /** `Formatter.format_log`. */
  function FormatLog(events: map<string, EventDef>, rec: RecordView): (r: Result<map<string, Value>, Error>)
    ensures r.Ok? <==> EventOf(events, rec.event).Ok?
    ensures !Truthy(rec.event) ==> r.Ok?
    ensures r.Err? ==> r.error == EventOf(events, rec.event).error
    ensures r.Ok? ==> r.value.Keys == {"title", "description", "emoji"}
    ensures r.Ok? ==> Truthy(r.value["title"]) && Truthy(r.value["emoji"])
  {
    var e :- EventOf(events, rec.event);
    var title := Choose(rec.title, Lookup(e, "title"), Str(rec.name + " (" + rec.levelname + ")"));
    var description := Choose(rec.description, Lookup(e, "description"), Str(rec.message));
    var emoji := Choose(rec.emoji, Lookup(e, "emoji"), Str(LevelEmoji(rec.levelno)));
    Ok(map["title" := title, "description" := description, "emoji" := emoji])
  }

  /** The record's own truthy title, description and emoji win over the
      event's, whatever the event defines. */
  lemma RecordValuesWin(events: map<string, EventDef>, rec: RecordView)
    requires FormatLog(events, rec).Ok?
    requires Truthy(rec.title) && Truthy(rec.description) && Truthy(rec.emoji)
    ensures FormatLog(events, rec).value == map["title" := rec.title, "description" := rec.description, "emoji" := rec.emoji]
  {
  }

  /** A registered event fills in what the record leaves falsy. */
  lemma EventFillsIn(events: map<string, EventDef>, rec: RecordView)
    requires rec.event.Str? && rec.event.s != "" && rec.event.s in events
    requires var e := events[rec.event.s];
      "title" in e && Truthy(e["title"]) && "description" in e && Truthy(e["description"])
      && "emoji" in e && Truthy(e["emoji"])
    requires !Truthy(rec.title) && !Truthy(rec.description) && !Truthy(rec.emoji)
    ensures var e := events[rec.event.s];
      FormatLog(events, rec) == Ok(map["title" := e["title"], "description" := e["description"], "emoji" := e["emoji"]])
  {
  }

  /** A record with no event and no lawg attributes gets the fallbacks:
      `"name (LEVEL)"`, its message, and its level's emoji. */
  lemma PlainRecordFallbacks(events: map<string, EventDef>, name: string, levelname: string, levelno: int,
                             message: string)
    ensures FormatLog(events, RecordView(name, levelname, levelno, message, Null, Null, Null, Null))
         == Ok(map["title" := Str(name + " (" + levelname + ")"), "description" := Str(message),
                   "emoji" := Str(LevelEmoji(levelno))])
  {
  }

  /** Formatting a freshly prepared record: a record that was logged
      without `extra=` never fails. */
  method FormatRecord(events: map<string, EventDef>, record: LogRecord) returns (r: Result<map<string, Value>, Error>)
    modifies record`attrs
    ensures record.attrs == Prepared(old(record.attrs))
    ensures r == FormatLog(events, record.View())
    ensures old(record.attrs) == map[] ==> r.Ok?
  {
    record.Prepare();
    r := FormatLog(events, record.View());
  }
}
