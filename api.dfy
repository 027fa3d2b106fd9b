/** The client-side session: a cache of catalogue and event handles, keyed
    by uuid text and (for catalogues) by name, plus the connection settings
    the opaque connect step uses. The module-level helpers act on one shared
    session, which is passed here explicitly. */
module Api {
  import opened Wrappers
  import opened Uuids
  import opened Handles
  import opened Cache

  const DEFAULT_HOST: string := "http://localhost"
  const DEFAULT_PORT: int := 8000
  const DEFAULT_FILE_PATH: string := "updates.y"

  class Session {
    var catalogues: CatalogueMap
    var events: EventMap
    var host: string
    var port: int
    var filePath: string

    /** The cache invariant every method below keeps: each entry sits under
        a key of its own. */
    predicate Consistent()
      reads this
    {
      CataloguesKeyed(catalogues) && EventsKeyed(events)
    }

    /** A fresh session; an argument left out takes its default. */
    constructor (host: Option<string>, port: Option<int>, filePath: Option<string>)
      ensures catalogues == map[] && events == map[]
      ensures this.host == host.GetOr(DEFAULT_HOST)
      ensures this.port == port.GetOr(DEFAULT_PORT)
      ensures this.filePath == filePath.GetOr(DEFAULT_FILE_PATH)
      ensures Consistent()
    {
      catalogues := map[];
      events := map[];
      this.host := host.GetOr(DEFAULT_HOST);
      this.port := port.GetOr(DEFAULT_PORT);
      this.filePath := filePath.GetOr(DEFAULT_FILE_PATH);
    }

    /** Creates a catalogue in a new store and caches it under its uuid text
        and its name. `generated` is the random uuid the store picks when no
        uuid is given. */
    method CreateCatalogue(name: string, author: string, uuid: Option<Uuid>, generated: Uuid)
      returns (c: Catalogue)
      modifies this
      ensures c.name == name && c.author == author && c.uuid == uuid.GetOr(generated)
      ensures catalogues == PutCatalogue(old(catalogues), c)
      ensures events == old(events)
      ensures host == old(host) && port == old(port) && filePath == old(filePath)
      ensures old(Consistent()) ==> Consistent()
    {
      c := Catalogue(uuid.GetOr(generated), name, author);
      catalogues := catalogues[UuidKey(c.uuid) := c];
      catalogues := catalogues[c.name := c];
    }

    /** Creates an event in a new store and caches it under its uuid text. */
    method CreateEvent(start: int, stop: int, author: string, uuid: Option<Uuid>, generated: Uuid)
      returns (e: Event)
      modifies this
      ensures e.start == start && e.stop == stop && e.author == author
      ensures e.uuid == uuid.GetOr(generated)
      ensures events == PutEvent(old(events), e)
      ensures catalogues == old(catalogues)
      ensures host == old(host) && port == old(port) && filePath == old(filePath)
      ensures old(Consistent()) ==> Consistent()
    {
      e := Event(uuid.GetOr(generated), start, stop, author);
      events := events[UuidKey(e.uuid) := e];
    }

    /** The cached catalogue under `key`; a missing key raises, with no
        fallback to the store. */
    method GetLocalCatalogue(key: string) returns (r: Result<Catalogue>)
      ensures r.Ok? <==> key in catalogues
      ensures r.Ok? ==> r.value == catalogues[key]
      ensures r.Err? ==> r.error == KeyError(key)
      ensures r.Ok? && Consistent() ==> key == UuidKey(r.value.uuid) || key == r.value.name
    {
      if key in catalogues {
        r := Ok(catalogues[key]);
      } else {
        r := Err(KeyError(key));
      }
    }

    /** The cached event under `key`; a missing key raises. */
    method GetLocalEvent(key: string) returns (r: Result<Event>)
      ensures r.Ok? <==> key in events
      ensures r.Ok? ==> r.value == events[key]
      ensures r.Err? ==> r.error == KeyError(key)
      ensures r.Ok? && Consistent() ==> key == UuidKey(r.value.uuid)
    {
      if key in events {
        r := Ok(events[key]);
      } else {
        r := Err(KeyError(key));
      }
    }

    /** Fetches a catalogue by uuid text or name from the server and caches
        it. `fetched` is what the store's lookup found once the connect step
        has synchronised it; `None` is its not-found error, which leaves the
        cache as it was. */
    method GetRemoteCatalogue(key: string, fetched: Option<Catalogue>) returns (r: Result<Catalogue>)
      modifies this
      ensures fetched.None? ==> r == Err(CatalogueNotFound(key)) && catalogues == old(catalogues)
      ensures fetched.Some? ==>
        r == Ok(fetched.value) && catalogues == PutCatalogue(old(catalogues), fetched.value)
      ensures fetched.Some? && key in CatalogueKeys(fetched.value) ==>
        key in catalogues && catalogues[key] == fetched.value
      ensures events == old(events)
      ensures host == old(host) && port == old(port) && filePath == old(filePath)
      ensures old(Consistent()) ==> Consistent()
    {
      match fetched {
        case None =>
          r := Err(CatalogueNotFound(key));
        case Some(c) =>
          catalogues := catalogues[UuidKey(c.uuid) := c];
          catalogues := catalogues[c.name := c];
          r := Ok(c);
      }
    }

    /** Fetches an event by uuid text from the server and caches it. */
    method GetRemoteEvent(key: string, fetched: Option<Event>) returns (r: Result<Event>)
      modifies this
      ensures fetched.None? ==> r == Err(EventNotFound(key)) && events == old(events)
      ensures fetched.Some? ==> r == Ok(fetched.value) && events == PutEvent(old(events), fetched.value)
      ensures fetched.Some? && key == UuidKey(fetched.value.uuid) ==>
        key in events && events[key] == fetched.value
      ensures catalogues == old(catalogues)
      ensures host == old(host) && port == old(port) && filePath == old(filePath)
      ensures old(Consistent()) ==> Consistent()
    {
      match fetched {
        case None =>
          r := Err(EventNotFound(key));
        case Some(e) =>
          events := events[UuidKey(e.uuid) := e];
          r := Ok(e);
      }
    }
  }

  /** What `save_catalogue` accepts: a handle, a UUID or a string. */
  datatype CatalogueArg = CatalogueHandle(catalogue: Catalogue) | CatalogueUuid(uuid: Uuid) | CatalogueText(text: string)

  /** What `save_event` accepts: a handle, a UUID or a string. */
  datatype EventArg = EventHandle(event: Event) | EventUuid(uuid: Uuid) | EventText(text: string)

  /** What `get_catalogue` and `get_event` accept: a UUID or a string. */
  datatype KeyArg = KeyUuid(uuid: Uuid) | KeyText(text: string)

  /** `str(arg)` */
  function KeyText(arg: KeyArg): string {
    match arg
    case KeyUuid(u) => UuidKey(u)
    case KeyText(s) => s
  }

  /** The key `save_catalogue` looks up: a handle by its uuid, never its name. */
  function CatalogueArgKey(arg: CatalogueArg): string {
    match arg
    case CatalogueHandle(c) => UuidKey(c.uuid)
    case CatalogueUuid(u) => UuidKey(u)
    case CatalogueText(s) => s
  }

  /** The key `save_event` looks up. */
  function EventArgKey(arg: EventArg): string {
    match arg
    case EventHandle(e) => UuidKey(e.uuid)
    case EventUuid(u) => UuidKey(u)
    case EventText(s) => s
  }

  /** Replaces the connection settings; the caches are untouched. */
  method SetConfig(session: Session, host: string, port: int, filePath: string)
    modifies session
    ensures session.host == host && session.port == port && session.filePath == filePath
    ensures session.catalogues == old(session.catalogues) && session.events == old(session.events)
  {
    session.host := host;
    session.port := port;
    session.filePath := filePath;
  }

  /** `get_catalogue`: a remote fetch under `str(arg)`. */
  method GetCatalogue(session: Session, arg: KeyArg, fetched: Option<Catalogue>) returns (r: Result<Catalogue>)
    modifies session
    ensures fetched.None? ==>
      r == Err(CatalogueNotFound(KeyText(arg))) && session.catalogues == old(session.catalogues)
    ensures fetched.Some? ==>
      r == Ok(fetched.value) && session.catalogues == PutCatalogue(old(session.catalogues), fetched.value)
    ensures session.events == old(session.events)
    ensures session.host == old(session.host) && session.port == old(session.port)
    ensures session.filePath == old(session.filePath)
  {
    r := session.GetRemoteCatalogue(KeyText(arg), fetched);
  }

  /** `get_event`: a remote fetch under `str(arg)`. */
  method GetEvent(session: Session, arg: KeyArg, fetched: Option<Event>) returns (r: Result<Event>)
    modifies session
    ensures fetched.None? ==>
      r == Err(EventNotFound(KeyText(arg))) && session.events == old(session.events)
    ensures fetched.Some? ==>
      r == Ok(fetched.value) && session.events == PutEvent(old(session.events), fetched.value)
    ensures session.catalogues == old(session.catalogues)
    ensures session.host == old(session.host) && session.port == old(session.port)
    ensures session.filePath == old(session.filePath)
  {
    r := session.GetRemoteEvent(KeyText(arg), fetched);
  }

  /** `save_catalogue`: resolves the argument to a key and requires a cache
      hit. On success the result is the cached handle whose document the
      opaque connect step then pushes, which is the handle stored under that
      key and not necessarily the argument. A miss raises before any
      connect. */
  method SaveCatalogue(session: Session, arg: CatalogueArg) returns (r: Result<Catalogue>)
    ensures r.Ok? <==> CatalogueArgKey(arg) in session.catalogues
    ensures r.Ok? ==> r.value == session.catalogues[CatalogueArgKey(arg)]
    ensures r.Err? ==> r.error == KeyError(CatalogueArgKey(arg))
    ensures r.Ok? && arg.CatalogueHandle? && session.Consistent() ==>
      r.value.uuid == arg.catalogue.uuid || r.value.name == UuidKey(arg.catalogue.uuid)
  {
    r := session.GetLocalCatalogue(CatalogueArgKey(arg));
    if r.Ok? && arg.CatalogueHandle? && session.Consistent() {
      UuidKeyInjective(r.value.uuid, arg.catalogue.uuid);
    }
  }

  /** `save_event`: resolves the argument to a key and requires a cache hit;
      a hit for a handle is an event with that handle's uuid. */
  method SaveEvent(session: Session, arg: EventArg) returns (r: Result<Event>)
    ensures r.Ok? <==> EventArgKey(arg) in session.events
    ensures r.Ok? ==> r.value == session.events[EventArgKey(arg)]
    ensures r.Err? ==> r.error == KeyError(EventArgKey(arg))
    ensures r.Ok? && session.Consistent() && (arg.EventHandle? || arg.EventUuid?) ==>
      r.value.uuid == (if arg.EventHandle? then arg.event.uuid else arg.uuid)
  {
    r := session.GetLocalEvent(EventArgKey(arg));
    if r.Ok? && session.Consistent() && (arg.EventHandle? || arg.EventUuid?) {
      UuidKeyInjective(r.value.uuid, if arg.EventHandle? then arg.event.uuid else arg.uuid);
    }
  }
}
