/** The handles the session cache stores, and the cache updates it performs,
    as functions on the two dictionaries. `Api.Session` is specified by them. */
module Handles {
  import opened Uuids

  /** A catalogue handle as the session sees it: its identity and name (the
      two things it is cached under) and its author. */
  datatype Catalogue = Catalogue(uuid: Uuid, name: string, author: string)

  /** An event handle: its identity, its start and stop instants (already
      normalised by the store) and its author. */
  datatype Event = Event(uuid: Uuid, start: int, stop: int, author: string)
}

module Cache {
  import opened Uuids
  import opened Handles

  /** `Session.catalogues`: keyed by uuid text and by name. */
  type CatalogueMap = map<string, Catalogue>

  /** `Session.events`: keyed by uuid text. */
  type EventMap = map<string, Event>

  /** The keys a catalogue is cached under. */
  function CatalogueKeys(c: Catalogue): set<string> {
    {UuidKey(c.uuid), c.name}
  }

  /** Caching a catalogue: the uuid key is written, then the name key. */
  function PutCatalogue(m: CatalogueMap, c: Catalogue): (r: CatalogueMap)
    ensures r.Keys == m.Keys + CatalogueKeys(c)
    ensures UuidKey(c.uuid) in r && r[UuidKey(c.uuid)] == c
    ensures c.name in r && r[c.name] == c
    ensures forall k :: k in m && k !in CatalogueKeys(c) ==> r[k] == m[k]
  {
    m[UuidKey(c.uuid) := c][c.name := c]
  }

  /** Both writes store the same handle, so their order does not change the
      resulting dictionary, even when the name is the uuid text itself. */
  lemma WriteOrderIrrelevant(m: CatalogueMap, c: Catalogue)
    ensures m[UuidKey(c.uuid) := c][c.name := c] == m[c.name := c][UuidKey(c.uuid) := c]
  {
  }

  /** Caching an event: only its uuid key is written. */
  function PutEvent(m: EventMap, e: Event): (r: EventMap)
    ensures r.Keys == m.Keys + {UuidKey(e.uuid)}
    ensures UuidKey(e.uuid) in r && r[UuidKey(e.uuid)] == e
    ensures forall k :: k in m && k != UuidKey(e.uuid) ==> r[k] == m[k]
  {
    m[UuidKey(e.uuid) := e]
  }

  /** Every catalogue entry sits under its own uuid text or its own name. */
  predicate CataloguesKeyed(m: CatalogueMap) {
    forall k :: k in m ==> k in CatalogueKeys(m[k])
  }

  /** Every event entry sits under its own uuid text. */
  predicate EventsKeyed(m: EventMap) {
    forall k :: k in m ==> k == UuidKey(m[k].uuid)
  }

  lemma PutCatalogueKeepsKeyed(m: CatalogueMap, c: Catalogue)
    requires CataloguesKeyed(m)
    ensures CataloguesKeyed(PutCatalogue(m, c))
  {
  }

  lemma PutEventKeepsKeyed(m: EventMap, e: Event)
    requires EventsKeyed(m)
    ensures EventsKeyed(PutEvent(m, e))
  {
  }

  /** A name that is some earlier entry's uuid text takes that key over. */
  lemma NameShadowsUuidKey(m: CatalogueMap, c: Catalogue, d: Catalogue)
    requires d.name == UuidKey(c.uuid)
    ensures PutCatalogue(PutCatalogue(m, c), d)[UuidKey(c.uuid)] == d
  {
  }

  /** The converse: a catalogue with another uuid, whose name is not an
      entry's uuid text, leaves that entry's uuid key holding what it held. */
  lemma UuidKeyKept(m: CatalogueMap, c: Catalogue, d: Catalogue)
    requires UuidKey(c.uuid) in m
    requires d.name != UuidKey(c.uuid) && d.uuid != c.uuid
    ensures UuidKey(c.uuid) in PutCatalogue(m, d)
    ensures PutCatalogue(m, d)[UuidKey(c.uuid)] == m[UuidKey(c.uuid)]
  {
    UuidKeyInjective(c.uuid, d.uuid);
  }

  /** In particular a name that is not 36 characters long never takes over
      another entry's uuid key. */
  lemma ShortNameCannotShadow(m: CatalogueMap, c: Catalogue, d: Catalogue)
    requires UuidKey(c.uuid) in m
    requires |d.name| != UUID_KEY_LENGTH && d.uuid != c.uuid
    ensures UuidKey(c.uuid) in PutCatalogue(m, d)
    ensures PutCatalogue(m, d)[UuidKey(c.uuid)] == m[UuidKey(c.uuid)]
  {
    NotAKey(d.name, c.uuid);
    UuidKeyKept(m, c, d);
  }

  /** A second catalogue with the same name takes the name key over; the
      first stays reachable under its uuid text, unless the shared name is
      that very text. */
  lemma SameNameKeepsFirstByUuid(m: CatalogueMap, c1: Catalogue, c2: Catalogue)
    requires c1.name == c2.name && c1.uuid != c2.uuid
    requires c1.name != UuidKey(c1.uuid)
    ensures var r := PutCatalogue(PutCatalogue(m, c1), c2);
      r[c1.name] == c2 && r[UuidKey(c1.uuid)] == c1 && r[UuidKey(c2.uuid)] == c2
  {
    UuidKeyInjective(c1.uuid, c2.uuid);
  }

  /** The cache after caching `cs` in order, oldest first. */
  function PutCatalogues(m: CatalogueMap, cs: seq<Catalogue>): (r: CatalogueMap)
    decreases |cs|
  {
    if cs == [] then m else PutCatalogue(PutCatalogues(m, cs[..|cs| - 1]), cs[|cs| - 1])
  }

  /** The cache after caching `es` in order, oldest first. */
  function PutEvents(m: EventMap, es: seq<Event>): (r: EventMap)
    decreases |es|
  {
    if es == [] then m else PutEvent(PutEvents(m, es[..|es| - 1]), es[|es| - 1])
  }

  /** Some catalogue of `cs` has `k` as its uuid text or name. */
  predicate Written(cs: seq<Catalogue>, k: string) {
    exists j :: 0 <= j < |cs| && k in CatalogueKeys(cs[j])
  }

  lemma WrittenSnoc(cs: seq<Catalogue>, k: string)
    requires cs != []
    ensures Written(cs, k) <==> Written(cs[..|cs| - 1], k) || k in CatalogueKeys(cs[|cs| - 1])
  {
    var init, n := cs[..|cs| - 1], |cs| - 1;
    if Written(init, k) {
      var j :| 0 <= j < n && k in CatalogueKeys(init[j]);
      assert init[j] == cs[j];
    }
    if Written(cs, k) && k !in CatalogueKeys(cs[n]) {
      var j :| 0 <= j < |cs| && k in CatalogueKeys(cs[j]);
      assert j < n && init[j] == cs[j];
    }
  }

  /** After a sequence of writes, a key is present exactly when it was
      present before or some cached catalogue has it. */
  lemma {:induction false} PutCataloguesKeys(m: CatalogueMap, cs: seq<Catalogue>, k: string)
    ensures k in PutCatalogues(m, cs) <==> k in m || Written(cs, k)
  {
    if cs != [] {
      PutCataloguesKeys(m, cs[..|cs| - 1], k);
      WrittenSnoc(cs, k);
    }
  }

  /** The last write to a key wins: the key holds the latest catalogue that
      has it among its keys. */
  lemma {:induction false} LastWriterWins(m: CatalogueMap, cs: seq<Catalogue>, i: nat, k: string)
    requires i < |cs| && k in CatalogueKeys(cs[i])
    requires forall j :: i < j < |cs| ==> k !in CatalogueKeys(cs[j])
    ensures k in PutCatalogues(m, cs) && PutCatalogues(m, cs)[k] == cs[i]
  {
    var init := cs[..|cs| - 1];
    if i < |cs| - 1 {
      assert init[i] == cs[i];
      forall j | i < j < |init| ensures k !in CatalogueKeys(init[j]) {
        assert init[j] == cs[j];
      }
      LastWriterWins(m, init, i, k);
    }
  }

  /** A key no cached catalogue has keeps its old entry, or stays absent. */
  lemma {:induction false} UnwrittenKeyKept(m: CatalogueMap, cs: seq<Catalogue>, k: string)
    requires forall j :: 0 <= j < |cs| ==> k !in CatalogueKeys(cs[j])
    ensures k in PutCatalogues(m, cs) <==> k in m
    ensures k in m ==> PutCatalogues(m, cs)[k] == m[k]
  {
    if cs != [] {
      var init := cs[..|cs| - 1];
      forall j | 0 <= j < |init| ensures k !in CatalogueKeys(init[j]) {
        assert init[j] == cs[j];
      }
      UnwrittenKeyKept(m, init, k);
    }
  }

  /** A catalogue stays reachable under its uuid text as long as no later
      catalogue has the same uuid or a name equal to that text. */
  lemma ReachableByUuid(m: CatalogueMap, cs: seq<Catalogue>, i: nat)
    requires i < |cs|
    requires forall j :: i < j < |cs| ==> cs[j].uuid != cs[i].uuid && cs[j].name != UuidKey(cs[i].uuid)
    ensures UuidKey(cs[i].uuid) in PutCatalogues(m, cs)
    ensures PutCatalogues(m, cs)[UuidKey(cs[i].uuid)] == cs[i]
  {
    forall j | i < j < |cs| ensures UuidKey(cs[i].uuid) !in CatalogueKeys(cs[j]) {
      UuidKeyInjective(cs[j].uuid, cs[i].uuid);
    }
    LastWriterWins(m, cs, i, UuidKey(cs[i].uuid));
  }

  /** The event cached under a uuid's text is the latest event with that uuid. */
  lemma {:induction false} LatestEventByUuid(m: EventMap, es: seq<Event>, i: nat)
    requires i < |es|
    requires forall j :: i < j < |es| ==> es[j].uuid != es[i].uuid
    ensures UuidKey(es[i].uuid) in PutEvents(m, es)
    ensures PutEvents(m, es)[UuidKey(es[i].uuid)] == es[i]
  {
    var init := es[..|es| - 1];
    if i < |es| - 1 {
      assert init[i] == es[i];
      forall j | i < j < |init| ensures init[j].uuid != init[i].uuid {
        assert init[j] == es[j];
      }
      LatestEventByUuid(m, init, i);
      UuidKeyInjective(es[|es| - 1].uuid, es[i].uuid);
    }
  }
}
