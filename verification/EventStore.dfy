/** The event store and its half of the outbox (infra/postgres/event_store.go,
    infra/postgres/outbox.go:104-144). */
module EventStore {
  import opened Events
  import opened Aggregates
  import opened World
  import opened Saving
  import opened Loading
  import opened Machine
  import opened Postgres

  class Store<S(!new), V(!new)> {
    const db: Backend<S, V>

    constructor (db: Backend<S, V>)
      ensures this.db == db
    {
      this.db := db;
    }

    /** One INSERT per event; the first failure ends the batch. */
    method SaveEventsInTx(tx: Tx<V>, events: seq<Event>) returns (err: Error)
      requires db.Valid() && (tx as object) != db
      modifies db, tx
      ensures db.Valid() && Rely(db.cfg, tx.session, old(db.world), db.world)
      ensures err.Nil? ==> tx.poisoned == old(tx.poisoned)
      ensures err.Nil? ==> tx.writes == old(tx.writes).(events := old(tx.writes).events + events)
      ensures !err.Nil? ==> tx.poisoned
      ensures err == Concurrency ==> !Unique(db.world.events + old(tx.writes).events + events)
      ensures err.Nil? || err.Concurrency? || err.Storage?
      ensures old(db.faults) <= db.faults && (err.Storage? ==> old(tx.poisoned) || old(db.faults) < db.faults)
      ensures err.Nil? ==> db.faults == old(db.faults)
      ensures db.alone ==> db.world == old(db.world)
      ensures db.Calm(old(db.faults)) && !old(tx.poisoned) && old(tx.writes).events == [] ==>
        err == if Unique(db.world.events + events) then Nil else Concurrency
    {
      ghost var own := db.alone && !tx.poisoned && tx.writes.events == [];
      assert db.world.events + [] == db.world.events;
      RelyReflexive(db.cfg, tx.session, db.world);
      for i := 0 to |events|
        invariant db.Valid() && Rely(db.cfg, tx.session, old(db.world), db.world)
        invariant tx.writes == old(tx.writes).(events := old(tx.writes).events + events[..i])
        invariant tx.poisoned == old(tx.poisoned) && db.faults == old(db.faults)
        invariant db.alone ==> db.world == old(db.world)
        invariant own ==> Unique(db.world.events + events[..i])
      {
        ghost var before := db.world;
        err := db.InsertEvent(tx, events[i]);
        RelyTransitive(db.cfg, tx.session, old(db.world), before, db.world);
        if !err.Nil? {
          if Unique(db.world.events + old(tx.writes).events + events) {
            NoCollision(db.world.events, old(tx.writes).events, events, i);
          }
          assert db.world.events + [] + events == db.world.events + events;
          return err;
        }
        assert events[..i + 1] == events[..i] + [events[i]];
        if own {
          StaysUnique(db.world.events, events[..i], events[i]);
        }
      }
      assert events[..|events|] == events;
      return Nil;
    }

    /** OutboxStore.SaveEvents: the same rows for the outbox. */
    method SaveOutboxEvents(tx: Tx?<V>, events: seq<Event>) returns (err: Error)
      requires db.Valid() && (tx as object?) != db
      modifies db, tx
      ensures db.Valid() && (tx == null ==> err == NoTransaction && db.world == old(db.world))
      ensures tx != null ==> Rely(db.cfg, tx.session, old(db.world), db.world)
      ensures tx != null && err.Nil? ==>
        tx.writes == old(tx.writes).(outbox := old(tx.writes).outbox + events) && tx.poisoned == old(tx.poisoned)
      ensures tx != null && !err.Nil? ==> tx.poisoned && err == Storage
      ensures old(db.faults) <= db.faults && (db.alone ==> db.world == old(db.world))
      ensures err.Nil? ==> db.faults == old(db.faults)
      ensures db.faults == old(db.faults) && tx != null && !old(tx.poisoned) ==>
        UniqueIds(OutboxEvents(db.world.outbox) + old(tx.writes).outbox + events) ==> err.Nil?
    {
      if tx == null {
        return NoTransaction;
      }
      RelyReflexive(db.cfg, tx.session, db.world);
      for i := 0 to |events|
        invariant db.Valid() && Rely(db.cfg, tx.session, old(db.world), db.world)
        invariant tx.writes == old(tx.writes).(outbox := old(tx.writes).outbox + events[..i])
        invariant tx.poisoned == old(tx.poisoned)
        invariant db.faults == old(db.faults) && (db.alone ==> db.world == old(db.world))
      {
        ghost var before := db.world;
        err := db.InsertOutbox(tx, events[i]);
        RelyTransitive(db.cfg, tx.session, old(db.world), before, db.world);
        if !err.Nil? {
          if !old(tx.poisoned) && UniqueIds(OutboxEvents(db.world.outbox) + old(tx.writes).outbox + events) {
            NoIdTwice(OutboxEvents(db.world.outbox), old(tx.writes).outbox, events, i);
          }
          return err;
        }
        assert events[..i + 1] == events[..i] + [events[i]];
      }
      assert events[..|events|] == events;
      return Nil;
    }

    /** A failed marshal leaves no snapshot and a usable transaction, a failed INSERT
        poisons it.  Either way the error is only logged by Save. */
    method SaveSnapshotInTx(tx: Tx<V>, agg: AggregateRoot<S>) returns (err: Error)
      modifies db`faults, tx
      ensures err.Nil? ==> agg.spec.marshal(agg.Contents()).Some?
      ensures err.Nil? ==> tx.writes == old(tx.writes).(
        snapshot := Some(SnapshotRow(agg.id, agg.version, agg.spec.marshal(agg.Contents()).value)))
      ensures !err.Nil? ==> tx.writes == old(tx.writes)
      ensures old(tx.poisoned) ==> tx.poisoned
      ensures if agg.spec.marshal(agg.Contents()).None?
        then tx.poisoned == old(tx.poisoned) else tx.poisoned == !err.Nil?
      ensures old(db.faults) <= db.faults && (err.Nil? || !tx.poisoned ==> db.faults == old(db.faults))
      ensures db.faults == old(db.faults) && !old(tx.poisoned) ==>
        (err.Nil? <==> agg.spec.marshal(agg.Contents()).Some? && !db.refusesSnapshots)
    {
      var payload := agg.spec.marshal(agg.Contents());
      if payload.None? {
        return Decoding;
      }
      err := db.InsertSnapshot(tx, SnapshotRow(agg.id, agg.version, payload.value));
    }

    /** Save: the events, the same events in the outbox, perhaps a snapshot, all of
        it pending in the caller's transaction.  It may return nil with a poisoned
        transaction, but only if a snapshot was due. */
    method Save(tx: Tx?<V>, agg: AggregateRoot<S>) returns (err: Error)
      requires db.Valid() && (tx as object?) != db && agg.spec == db.cfg.spec
      requires tx != null ==> tx.writes.snapshot.None?
      modifies db, tx
      ensures db.Valid()
      ensures agg.events == [] ==> err.Nil? && db.world == old(db.world)
      ensures agg.events == [] && tx != null ==> tx.writes == old(tx.writes) && tx.poisoned == old(tx.poisoned)
      ensures agg.events != [] && tx == null ==> err == NoTransaction && db.world == old(db.world)
      ensures tx != null ==> Rely(db.cfg, tx.session, old(db.world), db.world)
      ensures tx != null && agg.events != [] && err.Nil? ==>
        var w, w' := old(tx.writes), tx.writes;
        && (old(tx.poisoned) ==> tx.poisoned)
        && w' == w.(events := w.events + agg.events, outbox := w.outbox + agg.events, snapshot := w'.snapshot)
        && MaybeSnapshot(db.cfg, agg.Contents(), w'.snapshot)
      ensures tx != null && err.Nil? && !old(tx.poisoned) ==>
        SnapshotOf(db.cfg.spec, db.cfg.frequency, agg.Contents()).None? ==> !tx.poisoned
      ensures tx != null && !err.Nil? ==> tx.poisoned
      ensures tx != null && err == Concurrency ==> !Unique(db.world.events + old(tx.writes).events + agg.events)
      ensures tx != null && err.Nil? && !tx.poisoned && agg.events != [] ==>
        tx.writes.snapshot == SnapshotOf(db.cfg.spec, db.cfg.frequency, agg.Contents())
      ensures err.Nil? && (tx != null ==> !tx.poisoned) ==> db.faults == old(db.faults)
      ensures old(db.faults) <= db.faults && (db.alone ==> db.world == old(db.world))
      ensures db.faults == old(db.faults) && tx != null && !old(tx.poisoned) && old(tx.writes) == NoWrites() ==>
        !err.Nil? ==> !Admits(db.world, SaveWrites<V>(agg.events, None))
      ensures db.Calm(old(db.faults)) && tx != null && !old(tx.poisoned) && old(tx.writes) == NoWrites() ==>
        && (err.Nil? <==> agg.events == [] || Admits(db.world, SaveWrites<V>(agg.events, None)))
        && (agg.events != [] && !Unique(db.world.events + agg.events) ==> err == Concurrency)
      ensures db.faults == old(db.faults) && tx != null && err.Nil? && agg.events != [] && !old(tx.poisoned) ==>
        (tx.poisoned <==> db.refusesSnapshots && SnapshotOf(db.cfg.spec, db.cfg.frequency, agg.Contents()).Some?)
    {
      if tx != null {
        RelyReflexive(db.cfg, tx.session, db.world);
      }
      var events := agg.events;
      if events == [] {
        return Nil;
      }
      if tx == null {
        return NoTransaction;
      }
      assert db.world.events + [] == db.world.events
        && OutboxEvents(db.world.outbox) + [] == OutboxEvents(db.world.outbox);
      err := SaveEventsInTx(tx, events);
      if !err.Nil? {
        assert db.world.events + [] == db.world.events;
        return err;
      }
      ghost var mid := db.world;
      err := SaveOutboxEvents(tx, events);
      RelyTransitive(db.cfg, tx.session, old(db.world), mid, db.world);
      if !err.Nil? {
        assert OutboxEvents(db.world.outbox) + [] == OutboxEvents(db.world.outbox);
        return err;
      }
      if ShouldSnapshot(db.cfg.frequency, agg.version) {
        var ignored := SaveSnapshotInTx(tx, agg);
      }
      return Nil;
    }

    method LoadEvents(me: Session, a: AggId, from: int) returns (r: Result<seq<Event>>)
      requires db.Valid()
      modifies db
      ensures db.Valid() && Rely(db.cfg, me, old(db.world), db.world)
      ensures r.Ok? ==> r.value == RowsAfter(db.world.events, a, from)
      ensures r == Err(Decoding) ==> exists e :: e in RowsAfter(db.world.events, a, from) && !Registered(e)
      ensures r.Ok? ==> forall e :: e in r.value ==> Registered(e)
      ensures old(db.faults) <= db.faults && (db.alone ==> db.world == old(db.world))
      ensures r == Err(Storage) <==> old(db.faults) < db.faults
      ensures r.Err? ==> r.error.Storage? || r.error.Decoding?
    {
      var rows := db.QueryEvents(me, a, from);
      if rows.Err? {
        return Err(rows.error);
      }
      r := Decode(rows.value);
    }

    /** The rows one by one; the first of an unregistered type ends the load. */
    method Decode(rows: seq<Event>) returns (r: Result<seq<Event>>)
      ensures r.Ok? <==> forall e :: e in rows ==> Registered(e)
      ensures if r.Ok? then r.value == rows else r.error == Decoding
    {
      var events: seq<Event> := [];
      for i := 0 to |rows|
        invariant events == rows[..i]
        invariant forall e :: e in events ==> Registered(e)
      {
        if !Registered(rows[i]) {
          return Err(Decoding);
        }
        events := events + [rows[i]];
      }
      assert rows[..|rows|] == rows;
      return Ok(events);
    }

    method LoadSnapshot(me: Session, a: AggId) returns (snapshot: Option<string>, version: int, err: Error)
      requires db.Valid()
      modifies db
      ensures db.Valid() && Rely(db.cfg, me, old(db.world), db.world)
      ensures err.Nil? || err.Storage?
      ensures err.Nil? ==>
        LatestSnapshot(db.world.snapshots, a) ==
          if snapshot.None? then None else Some(SnapshotRow(a, version, snapshot.value))
      ensures err.Nil? && snapshot.None? ==> version == 0
      ensures old(db.faults) <= db.faults && (db.alone ==> db.world == old(db.world))
      ensures err.Nil? <==> db.faults == old(db.faults)
    {
      var row := db.QuerySnapshot(me, a);
      if row.Err? {
        return None, 0, row.error;
      }
      match row.value
      case None => return None, 0, Nil;
      case Some(found) => return Some(found.payload), found.version, Nil;
    }

    /** Load: the newest snapshot, then, in a second query and after anything may
        have been committed, the events that follow it. */
    method Load(me: Session, a: AggId) returns (snapshot: Option<string>, version: int, history: seq<Event>, err: Error)
      requires db.Valid()
      modifies db
      ensures db.Valid() && Rely(db.cfg, me, old(db.world), db.world)
      ensures err.Nil? ==> history == RowsAfter(db.world.events, a, version)
      ensures err.Nil? && snapshot.None? ==> version == 0
      ensures err.Nil? && snapshot.Some? ==> SnapshotRow(a, version, snapshot.value) in db.world.snapshots
      ensures err.Nil? && (snapshot.Some? ==> db.cfg.spec.unmarshal(snapshot.value).Some?) ==>
        LoadedUpTo(db.cfg, db.world.events, a, Stream(old(db.world).events, a) != [],
          version, Restored(db.cfg.spec, snapshot))
      ensures old(db.faults) <= db.faults && (db.alone ==> db.world == old(db.world))
      ensures err.Nil? ==> db.faults == old(db.faults)
      ensures db.alone && err.Nil? ==>
        LatestSnapshot(db.world.snapshots, a) ==
          if snapshot.None? then None else Some(SnapshotRow(a, version, snapshot.value))
      ensures db.faults == old(db.faults) ==>
        (forall e :: e in Stream(db.world.events, a) ==> Registered(e)) ==> err.Nil?
    {
      snapshot, version, err := LoadSnapshot(me, a);
      if !err.Nil? {
        return None, 0, [], err;
      }
      ghost var mid := db.world;
      var events := LoadEvents(me, a, version);
      RelyTransitive(db.cfg, me, old(db.world), mid, db.world);
      StreamMembers(db.world.events, a);
      if events.Err? {
        return None, 0, [], events.error;
      }
      if snapshot.Some? ==> db.cfg.spec.unmarshal(snapshot.value).Some? {
        RestoredUpTo(db.cfg, old(db.world), mid, db.world, a, snapshot, version);
      }
      return snapshot, version, events.value, Nil;
    }
  }

  /** What was restored at the first query is still good at the second. */
  lemma RestoredUpTo<S(!new), V(!new)>(
      cfg: Config<S, V>, d: World<V>, mid: World<V>, d': World<V>, a: AggId, snapshot: Option<string>, version: int)
    requires Inv(cfg, mid) && d.events <= mid.events <= d'.events
    requires LatestSnapshot(mid.snapshots, a) ==
      if snapshot.None? then None else Some(SnapshotRow(a, version, snapshot.value))
    requires if snapshot.None? then version == 0 else cfg.spec.unmarshal(snapshot.value).Some?
    ensures LoadedUpTo(cfg, d'.events, a, Stream(d.events, a) != [], version, Restored(cfg.spec, snapshot))
  {
    SnapshotLoads(cfg, mid, a);
    StreamPrefix(d.events, mid.events, a);
    LoadedUpToStable(cfg, mid.events, d'.events, a, Stream(mid.events, a) != [], version, Restored(cfg.spec, snapshot));
  }

  /** The aggregate after step 1 of Repository.Load. */
  function Restored<S(!new)>(spec: AggregateSpec<S>, snapshot: Option<string>): Core<S> {
    if snapshot.Some? && spec.unmarshal(snapshot.value).Some? then spec.unmarshal(snapshot.value).value
      else EmptyCore(spec)
  }

  ghost predicate Unique(rows: seq<Event>) {
    UniqueIds(rows) && UniqueVersions(rows)
  }

  lemma NoCollision(rows: seq<Event>, own: seq<Event>, events: seq<Event>, i: nat)
    requires i < |events| && Unique(rows + own + events)
    ensures !exists x :: x in rows + (own + events[..i]) && Collides(x, events[i])
  {
    var all := rows + own + events;
    forall x | x in rows + (own + events[..i])
      ensures !Collides(x, events[i])
    {
      var j :| 0 <= j < |rows + (own + events[..i])| && (rows + (own + events[..i]))[j] == x;
      assert all[j] == x && all[|rows| + |own| + i] == events[i];
    }
  }

  lemma StaysUnique(rows: seq<Event>, own: seq<Event>, e: Event)
    requires Unique(rows + own) && !exists x :: x in rows + own && Collides(x, e)
    ensures Unique(rows + (own + [e]))
  {
    var all := rows + (own + [e]);
    assert all == rows + own + [e];
    assert forall k :: 0 <= k < |rows + own| ==> all[k] in rows + own;
  }

  lemma NoIdTwice(rows: seq<Event>, own: seq<Event>, events: seq<Event>, i: nat)
    requires i < |events| && UniqueIds(rows + own + events)
    ensures !exists x :: x in rows + (own + events[..i]) && x.id == events[i].id
  {
    var all := rows + own + events;
    forall x | x in rows + (own + events[..i])
      ensures x.id != events[i].id
    {
      var j :| 0 <= j < |rows + (own + events[..i])| && (rows + (own + events[..i]))[j] == x;
      assert all[j] == x && all[|rows| + |own| + i] == events[i];
    }
  }
}
