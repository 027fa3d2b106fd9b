# cocat: session cache and server path rules, in Dafny

This project models two self-contained parts of cocat, a system for editing
shared catalogues of time-bounded events collaboratively.

1. **The client-side session cache** (`Session` in `src/cocat/api.py`). A
   session holds two dictionaries of handles. `catalogues` is keyed both by a
   catalogue's uuid text and by its name. `events` is keyed by an event's uuid
   text. The session also holds the host, port and update-file path that the
   connect step uses. Creating an entity, or fetching it from the server,
   writes it into the cache. Local lookups read the cache only. The
   module-level `save_*` helpers resolve their argument to a key and then need
   a cache hit.
2. **Two string rules of the server** (`src/cocat/app/app.py`). One
   normalises the proxy prefix the application is mounted under. The other
   derives the path of a room's durable update log from the room id.

Module layout:

- `Wrappers` (wrappers.dfy): `Option`, the `Error`s the code raises, and
  `Result`, which is a value or a raised error.
- `Uuids` (uuids.dfy): a UUID is its 128-bit value. `UuidKey` is Python's
  `str(uuid)`: 32 lower-case hex digits split 8-4-4-4-12 by dashes. A
  parser is proved to invert it, so distinct UUIDs have distinct keys.
- `Handles` and `Cache` (cache.dfy): the handles, and the two cache writes
  as functions on maps. `PutCatalogue` writes the uuid key and then the name
  key. `PutEvent` writes the uuid key. There are lemmas about a sequence of
  such writes, where the last writer of a key wins.
- `Api` (api.dfy): the `Session` class. Its fields are the two maps and
  the three settings. Its methods are specified by the `Cache` functions.
  Beside it are the module-level `set_config`, `get_*` and `save_*`. The
  process-wide `SESSION` object is passed to them as an explicit parameter.
- `App` (app.dfy): `RootPath` for the prefix rule, and `RoomLogPath` with
  its helpers `LStripSlashes` (Python's `lstrip('/')`) and `Join` (a plain-text
  stand-in for pathlib's `/`; see "## Left out").

Facts worth knowing, each proved:

- Within one `create_catalogue`, both writes store the same handle. So
  writing the uuid key first and the name key second gives the same map as
  the other order (`Cache.WriteOrderIrrelevant`).
- A catalogue whose name is another entry's uuid text takes that key over
  (`Cache.NameShadowsUuidKey`). A name that is not 36 characters long
  never does (`Cache.ShortNameCannotShadow`). `save_catalogue(handle)` resolves the handle
  by its uuid text, so it can then reach the other catalogue. In a
  consistent cache, the hit has the handle's uuid or is named by its uuid
  text (`Api.SaveCatalogue`).
- Only one trailing `/` is removed from the prefix. So `"//"` becomes
  `"/"`, and normalising again gives `""`: the rule is not idempotent.
- A room id made only of slashes strips to the empty name. For a
  directory already in pathlib's normal form (nonempty, no trailing `/`,
  no `.` segment), its log is then `<dir>.y`, which sits next to the update
  directory, not inside it. Under the server's default empty directory it
  is `..y` in the working directory (`App.RoomLogPath`).

Inputs the model cannot compute become parameters:

- the value of `COCAT_PROXY_PREFIX` in the environment (`env`);
- the random uuid a store picks when none is given (`generated`);
- what the store's lookup returns after the connect step (`fetched`).

## Model

| member | source | states |
|---|---|---|
| Uuids.UuidKey | src/cocat/api.py:45 | `str(uuid)` is 36 characters long |
| Uuids.UuidKeyShape | src/cocat/api.py:45 | the key has dashes at positions 8, 13, 18 and 23; removing them leaves the 32 hex digits of the value |
| Uuids.HexRoundTrip | src/cocat/api.py:45 | parsing the `k` hex digits of any `n < 16^k` gives back `n` |
| Uuids.UuidKeyRoundTrip | src/cocat/api.py:45 | the uuid key of `u` parses back to `u` |
| Uuids.UuidKeyInjective | src/cocat/api.py:45-46 | two UUIDs have the same key exactly when they are equal |
| Uuids.NotAKey | src/cocat/api.py:46 | a string whose length is not 36, such as a short name, is no UUID's key (used by `Cache.ShortNameCannotShadow`) |
| Cache.PutCatalogue | src/cocat/api.py:45-46 | caching a catalogue adds exactly its uuid key and its name key; both map to it; every other key keeps its entry |
| Cache.WriteOrderIrrelevant | src/cocat/api.py:45-46 | writing the uuid key before the name key gives the same map as the reverse order |
| Cache.PutEvent | src/cocat/api.py:71 | caching an event adds exactly its uuid key, which maps to it; every other key keeps its entry |
| Cache.PutCatalogueKeepsKeyed | src/cocat/api.py:45-46 | if every catalogue entry sits under its own uuid key or name, that stays true after a write |
| Cache.PutEventKeepsKeyed | src/cocat/api.py:71 | if every event entry sits under its own uuid key, that stays true after a write |
| Cache.NameShadowsUuidKey | src/cocat/api.py:45-46 | a later catalogue whose name is an earlier one's uuid text takes that key: the name write wins |
| Cache.UuidKeyKept | src/cocat/api.py:45-46 | the converse of name shadowing: a catalogue with another uuid, whose name is not an entry's uuid text, leaves that entry's uuid key holding what it held |
| Cache.ShortNameCannotShadow | src/cocat/api.py:45-46 | the special case of `Cache.UuidKeyKept` for a name that is not 36 characters long |
| Cache.SameNameKeepsFirstByUuid | src/cocat/api.py:45-46 | a second catalogue with the same name takes the name key; the first stays under its own uuid key; the second is under its uuid key |
| Cache.PutCataloguesKeys | src/cocat/api.py:45-46 | after a sequence of catalogue writes, a key is present exactly when it was present before or is a key of some written catalogue |
| Cache.LastWriterWins | src/cocat/api.py:45-46 | after a sequence of catalogue writes, a key holds the last catalogue that has it as uuid key or name |
| Cache.UnwrittenKeyKept | src/cocat/api.py:45-46 | a key that no written catalogue has keeps its old entry, or stays absent |
| Cache.ReachableByUuid | src/cocat/api.py:45-46 | a catalogue stays reachable under its uuid key when no later catalogue has the same uuid or a name equal to that key |
| Cache.LatestEventByUuid | src/cocat/api.py:71-72 | after a sequence of event writes, a uuid's key holds the latest event with that uuid |
| Api.Session.constructor | src/cocat/api.py:13-18 | a new session has empty caches; each setting is its argument, or the default `"http://localhost"`, `8000`, `"updates.y"` when left out |
| Api.Session.CreateCatalogue | src/cocat/api.py:27-47 | the returned catalogue has the given name and author, and the given uuid or else the generated one; `catalogues` becomes `PutCatalogue(old, c)`; events and settings are unchanged; consistency is kept |
| Api.Session.CreateEvent | src/cocat/api.py:49-72 | the returned event carries the arguments and the given or generated uuid; `events` becomes `PutEvent(old, e)`; catalogues and settings are unchanged |
| Api.Session.GetLocalCatalogue | src/cocat/api.py:74-75 | succeeds exactly when the key is cached and returns that entry; a miss raises `KeyError(key)`; in a consistent cache the hit is that catalogue's uuid key or name |
| Api.Session.GetLocalEvent | src/cocat/api.py:85-86 | succeeds exactly when the key is cached and returns that entry; a miss raises `KeyError(key)`; in a consistent cache the key is the event's uuid text |
| Api.Session.GetRemoteCatalogue | src/cocat/api.py:77-83 | a found catalogue is cached under its uuid key and its name, then returned; the key that found it then reads it locally; not-found raises and leaves the cache as it was |
| Api.Session.GetRemoteEvent | src/cocat/api.py:88-93 | a found event is cached under its uuid key, then returned; not-found raises and leaves the cache as it was; catalogues are untouched |
| Api.SetConfig | src/cocat/api.py:99-102 | host, port and file path become the arguments; both caches are unchanged |
| Api.GetCatalogue | src/cocat/api.py:177-178 | a remote catalogue fetch under `str(arg)`, with the same effect on the cache |
| Api.GetEvent | src/cocat/api.py:190-191 | a remote event fetch under `str(arg)`, with the same effect on the cache |
| Api.SaveCatalogue | src/cocat/api.py:181-187 | a handle resolves to its uuid key, anything else to its text; the result is the cached entry under that key; a miss raises `KeyError` before any connect; in a consistent cache a handle's hit has its uuid or is named by its uuid text |
| Api.SaveEvent | src/cocat/api.py:194-200 | a handle or a UUID resolves to its uuid key, text to itself; the result is the cached entry, which in a consistent cache carries that uuid; a miss raises `KeyError` before any connect |
| App.RootPath | src/cocat/app/app.py:50-57 | the result is empty exactly when the prefix is unset, empty or `"/"`; any other result starts with `/` and is `/` followed by the prefix with at most one leading and one trailing `/` removed |
| App.UnsetIsEmpty | src/cocat/app/app.py:50-57 | an unset prefix and an empty one both give `""` |
| App.RootPathNotIdempotent | src/cocat/app/app.py:54-55 | `"//"` gives `"/"`, and normalising that again gives `""` |
| App.NormalFormIsFixed | src/cocat/app/app.py:51-55 | a prefix that starts with `/` and does not end with `/` is unchanged |
| App.LeadingSlashOptional | src/cocat/app/app.py:52-53 | a prefix that lacks the leading `/` gives the same result as the same prefix with one |
| App.LStripSlashes | src/cocat/app/app.py:31 | the result is a suffix of the input; everything removed is `/`; the result does not start with `/` |
| App.StripSlashesPrefix | src/cocat/app/app.py:31 | any number of extra leading slashes strips to the same text |
| App.SameStripped | src/cocat/app/app.py:31 | two ids strip to the same text exactly when they differ only in how many slashes they start with |
| App.Join | src/cocat/app/app.py:31 | the text stand-in for pathlib's `/`: the directory is a prefix of the result; under a nonempty directory a nonempty name follows one `/` and an empty name leaves the directory; under the empty directory (pathlib's `.`) the name stands alone, and an empty name gives `.` |
| App.RoomLogPath | src/cocat/app/app.py:31 | the log path starts with the directory and ends in `.y`; a room id made only of slashes gives the directory's own path plus `.y` (`..y` under the empty directory); under the stand-in join, the only other id that does so is one stripping to `.` under the empty directory |
| App.LogFileName | src/cocat/app/app.py:31 | for an id that does not strip to empty, the path is `dir + "/" + stripped id + ".y"`, or `stripped id + ".y"` under the empty directory, and the name part does not start with `/` |
| App.SameLogFile | src/cocat/app/app.py:31 | room ids that strip to the same text share a log file; under the stand-in join, the only other ids that do are a pair stripping to `""` and `.` under the empty directory |
| App.LeadingSlashesShareLog | src/cocat/cli.py:74 | room ids that differ only in their leading slashes map to the same log file |

## Left out

- `Session.connect` and the `connect("websocket" | "file", ...)` calls are left out. So are the anyio `Lock` and the `client` and `file` attributes. These are network and file I/O. The connect step is taken not to touch the cache.
- Async scheduling is left out. Two tasks that interleave on one session are not modelled.
- The store (`DB`) and the handles' internals are left out, because their code is not part of this model. This covers `DB.create_catalogue` and `DB.create_event` with tags, attributes, products, rating and initial events, the store's lookup rule, and its not-found message text. A handle keeps only its uuid, its name or start/stop, and its author. The store's lookup outcome is the `fetched` parameter.
- A `uuid` argument given as `str`, `bytes` or `bytearray` is converted to a UUID inside the store, so the model takes an already-converted `Uuid`. Timestamp parsing of `start`/`stop` is left out in the same way; they are given as instants (`int`).
- `uuid4` generation is random, so it is the `generated` parameter.
- The module-level `create_catalogue` and `create_event` (src/cocat/api.py:105-174) only forward their keyword arguments to the shared session. They are the same operations as `Api.Session.CreateCatalogue` and `Api.Session.CreateEvent`.
- Handles are values frozen at caching time. In Python the dictionaries hold references to live handles, each over a store document that later connects can change. So `Api.Session.Consistent` and the "in a consistent cache" clauses describe each handle as it was when it was written. Entries can go stale, as the session's callers must expect.
- Python dictionaries remember insertion order; the model's maps do not. No cited line depends on that order.
- Api.Session.GetRemoteCatalogue: the lookup key is not tied to the catalogue that is found, because that rule belongs to the store. The read-back property is stated only for a found catalogue that the key names.
- Api.Session.GetRemoteEvent: the same holds for events. The read-back property is stated only when the key is the found event's uuid text.
- App.Join: is text concatenation, not pathlib's `Path(dir) / name`. It follows pathlib for the empty directory, the default `update_dir` of `serve` (src/cocat/cli.py:29): there the name stands alone and an empty name gives `.`. Pathlib also drops `.` segments, drops trailing slashes and collapses repeated slashes; the stand-in does none of these, so `Join("d/", "")` is `d/` where pathlib gives `d`. For the directory `"/"` pathlib gives `"/a"` where the stand-in gives `"//a"`. The two agree only on texts that none of these rules changes.
- App.RoomLogPath: the "only when" half holds of the stand-in only. Under pathlib a room id stripping to `.` gives `<dir>.y` under every directory, not only the empty one.
- App.SameLogFile: the "only if" half holds of the stand-in only. Under pathlib `"./a"` and `"a"`, or `"a/"` and `"a"`, share `<dir>/a.y` although they strip to different text, and `"a"` and `"./a"` do so under the empty directory too. The "if" half holds of the source, and so does `App.LeadingSlashesShareLog`.
- The `COCAT_PROXY_PREFIX` environment lookup is left out: its value is the `env` parameter.
- FastAPI wiring, CORS, the authentication routers, the websocket route and the `YWebSocket` adapter (src/cocat/app/app.py:59-133) are left out. They are HTTP and websocket plumbing.
- `RoomManager` and `Room` are left out. They come from a library outside this repository.
- The user database (src/cocat/app/db.py) and the schemas (src/cocat/app/schemas.py) are left out. They are declarations without logic.
- The CLI (src/cocat/cli.py) is left out. Its log-path rule at line 74 is the same as app.py line 31 and is covered by `App.RoomLogPath`.
- tests/test_api.py calls `set_config` with a `room_id` and also calls `log_in`, `refresh` and `save`. None of these are in src/cocat/api.py. The model follows the code, where `set_config` takes host, port and file path only.
