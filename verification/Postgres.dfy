/** The database and the broker as the components see them: statements, commits
    and publications are atomic, everything else may happen in between
    (infra/postgres/db.go, infra/postgres/idempotency.go).

    `Interfere` stands for the rest of the system: it may take any number of
    steps that a session may rely on.  Statements may fail at any time, and a
    commit may take effect and still be reported as failed: `faults` counts these
    failures, and no operation reports an error of its own accord.  Contracts are
    exact for an operation that ran alone and met no fault (`Calm`). */
module Postgres {
  import opened Events
  import opened World
  import opened Projecting
  import opened Relaying
  import opened Machine

  /** An open transaction.  Once a statement has failed it is poisoned: nothing
      it wrote can take effect any more. */
  class Tx<V(!new)> {
    const session: Session
    var writes: Writes<V>
    var poisoned: bool

    constructor (session: Session)
      ensures this.session == session && writes == NoWrites() && !poisoned
    {
      this.session := session;
      writes, poisoned := NoWrites(), false;
    }
  }

  function Committed<V>(d: World<V>, me: Session, w: Writes<V>): World<V> {
    Unlock(Merge(d, w), me)
  }

  /** Whenever the constraints admit the writes, now or later, committing them is
      an action that all other sessions can live with. */
  ghost predicate CommitSafe<S(!new), V(!new)>(cfg: Config<S, V>, me: Session, d: World<V>, w: Writes<V>) {
    forall d' :: Rely(cfg, me, d, d') && Admits(d', w) ==> Guarantee(cfg, me, d', Committed(d', me, w))
  }

  lemma RelyReflexive<S(!new), V(!new)>(cfg: Config<S, V>, me: Session, d: World<V>)
    requires Inv(cfg, d)
    ensures Rely(cfg, me, d, d)
  {
    GrowsReflexive(cfg, d);
  }

  lemma RelyTransitive<S(!new), V(!new)>(cfg: Config<S, V>, me: Session, d: World<V>, d': World<V>, d'': World<V>)
    requires Rely(cfg, me, d, d') && Rely(cfg, me, d', d'')
    ensures Rely(cfg, me, d, d'')
  {
    GrowsTransitive(cfg, d, d', d'');
  }

  lemma CommitSafeStable<S(!new), V(!new)>(cfg: Config<S, V>, me: Session, d: World<V>, d': World<V>, w: Writes<V>)
    requires CommitSafe(cfg, me, d, w) && Rely(cfg, me, d, d')
    ensures CommitSafe(cfg, me, d', w)
  {
    forall d'' | Rely(cfg, me, d', d'') && Admits(d'', w)
      ensures Guarantee(cfg, me, d'', Committed(d'', me, w))
    {
      RelyTransitive(cfg, me, d, d', d'');
    }
  }

  /** A step of the machine by one process is something every session without
      part in it may rely on: the components are verified against an environment
      that includes every such step. */
  lemma MachineStepsAreRely<S(!new), V(!new)>(
      cfg: Config<S, V>, s: System<S, V>, step: Step, s': System<S, V>, me: Session)
    requires SystemInv(cfg, s) && Take(cfg, s, step) == Some(s')
    requires step.ByRelay? ==> step.r != me
    ensures Rely(cfg, me, s.world, s'.world)
  {
    StepKeepsInv(cfg, s, step, s');
    match step
    case ByWriter(w, action) => WriterStepKeepsInv(cfg, s, w, action, s');
    case ByRelay(r, move) => RelayStepKeepsInv(cfg, s, r, move, s');
    case ByWorker(p, act) => WorkerStepKeepsInv(cfg, s, p, act, s');
  }

  class Backend<S(!new), V(!new)> {
    const cfg: Config<S, V>
    /** Whether nobody else is at work. */
    const alone: bool
    /** Whether the driver reports the commit of a poisoned transaction. */
    const reportsRollback: bool
    /** Whether the database refuses snapshot rows, without any fault. */
    const refusesSnapshots: bool
    var world: World<V>
    /** How many statements, commits and publications have failed so far. */
    ghost var faults: nat

    ghost predicate Valid()
      reads this`world
    {
      Inv(cfg, world)
    }

    /** Nobody interferes, and nothing has failed since then. */
    ghost predicate Calm(since: nat)
      reads this`faults
    {
      alone && faults == since
    }

    constructor (cfg: Config<S, V>, alone: bool, reportsRollback: bool, refusesSnapshots: bool)
      ensures this.cfg == cfg && this.alone == alone
      ensures this.reportsRollback == reportsRollback && this.refusesSnapshots == refusesSnapshots
      ensures Valid() && world == InitialWorld() && faults == 0
    {
      this.cfg, this.alone := cfg, alone;
      this.reportsRollback, this.refusesSnapshots := reportsRollback, refusesSnapshots;
      world, faults := InitialWorld(), 0;
      StartInv<S, V>(cfg);
    }

    /** The others run.  Callers learn nothing but the contract. */
    method Interfere(me: Session)
      requires Valid()
      modifies this`world
      ensures Valid() && Rely(cfg, me, old(world), world)
      ensures alone ==> world == old(world)
    {
      RelyReflexive(cfg, me, world);
    }

    /** Whether something fails. */
    method Fails() returns (b: bool)
      modifies this`faults
      ensures faults == if b then old(faults) + 1 else old(faults)
    {
      b := *;
      if b {
        faults := faults + 1;
      }
    }

    /** Pool.Begin */
    method Begin(me: Session) returns (tx: Tx?<V>, err: Error)
      modifies this`faults
      ensures tx == null <==> !err.Nil?
      ensures err.Nil? || err.Storage?
      ensures tx != null ==> fresh(tx) && tx.session == me && tx.writes == NoWrites() && !tx.poisoned
      ensures faults == if err.Nil? then old(faults) else old(faults) + 1
    {
      var failed := Fails();
      if failed {
        return null, Storage;
      }
      tx := new Tx(me);
      return tx, Nil;
    }

    /** tx.Commit.  `before` is the shared state at the moment of the commit. */
    method Commit(tx: Tx<V>) returns (err: Error, ghost effect: bool, ghost before: World<V>)
      requires Valid() && (tx.poisoned || CommitSafe(cfg, tx.session, world, tx.writes))
      modifies this
      ensures Valid() && Grows(cfg, old(world), world)
      ensures Rely(cfg, tx.session, old(world), before)
      ensures effect ==> !tx.poisoned && Admits(before, tx.writes) && world == Committed(before, tx.session, tx.writes)
      ensures !effect ==> world == Unlock(before, tx.session)
      ensures !effect && (tx.poisoned || !(tx.writes.marks !! before.processed)) ==> (err.Nil? <==> !reportsRollback)
      ensures !effect && !tx.poisoned && tx.writes.marks !! before.processed ==> !err.Nil?
      ensures err.Nil? || err.Storage?
      ensures old(faults) <= faults <= old(faults) + 1 && (alone ==> before == old(world))
      ensures faults == old(faults) ==> (effect <==> !tx.poisoned && Admits(before, tx.writes))
      ensures faults == old(faults) && effect ==> err.Nil?
      ensures err.Nil? ==> faults == old(faults)
    {
      Interfere(tx.session);
      before, effect, err := world, false, Storage;
      UnlockKeepsInv(cfg, before, tx.session);
      if tx.poisoned || !(tx.writes.marks !! world.processed) {
        world := Unlock(world, tx.session);
        err := if reportsRollback then Storage else Nil;
      } else if !Admits(world, tx.writes) {
        world := Unlock(world, tx.session);
      } else {
        var lost := Fails();
        if lost {
          world := Unlock(world, tx.session);
        } else {
          effect, world := true, Committed(world, tx.session, tx.writes);
          var misreported := Fails();
          if !misreported {
            err := Nil;
          }
        }
      }
      GrowsTransitive(cfg, old(world), before, world);
    }

    /** tx.Rollback */
    method Rollback(tx: Tx<V>)
      requires Valid()
      modifies this`world
      ensures Valid() && Grows(cfg, old(world), world)
      ensures world == Unlock(old(world), tx.session)
    {
      UnlockKeepsInv(cfg, world, tx.session);
      world := Unlock(world, tx.session);
    }

    // ----- The broker (infra/nats/broker.go) -----

    /** Publish: the broker may have taken an event that it does not confirm. */
    method Publish(me: Session, e: Event) returns (err: Error, ghost before: World<V>, ghost taken: bool)
      requires Valid() && e in world.events && e.aggType != ""
      modifies this
      ensures Valid() && Rely(cfg, me, old(world), world)
      ensures err.Nil? ==> e in world.messages
      ensures err.Nil? || err.Publishing?
      ensures Rely(cfg, me, old(world), before) && (alone ==> before == old(world))
      ensures (err.Nil? ==> taken) && world == if taken then Send(before, e) else before
      ensures faults == if err.Nil? then old(faults) else old(faults) + 1
    {
      Interfere(me);
      before, taken := world, false;
      RelyReflexive(cfg, me, world);
      err := Publishing;
      var refused := Fails();
      if !refused {
        taken := true;
        SendKeepsInv(cfg, world, me, e);
        world := Send(world, e);
        var unconfirmed := Fails();
        if !unconfirmed {
          err := Nil;
        }
      }
      RelyTransitive(cfg, me, old(world), before, world);
    }

    /** Ack: it may get lost, and then the message will come again. */
    method Ack(me: Session, i: nat, sub: SubId)
      requires Valid() && i < |world.messages| && Processed(world, sub, world.messages[i])
      modifies this
      ensures Valid() && Rely(cfg, me, old(world), world)
      ensures old(faults) <= faults <= old(faults) + 1
      ensures faults == old(faults) ==> (i, sub) in world.acked
      ensures alone ==> world == if faults == old(faults)
        then old(world).(acked := old(world).acked + {(i, sub)}) else old(world)
    {
      Interfere(me);
      ghost var before := world;
      RelyReflexive(cfg, me, world);
      var lost := Fails();
      if !lost {
        AckKeepsInv(cfg, world, sub, i);
        world := world.(acked := world.acked + {(i, sub)});
      }
      RelyTransitive(cfg, me, old(world), before, world);
    }

    // ----- Queries through the pool -----

    method QueryProcessed(me: Session, id: EventId, sub: SubId) returns (r: Result<bool>)
      requires Valid()
      modifies this
      ensures Valid() && Rely(cfg, me, old(world), world)
      ensures r.Ok? ==> r.value == ((id, sub) in world.processed)
      ensures alone ==> world == old(world)
      ensures faults == if r.Ok? then old(faults) else old(faults) + 1
      ensures r.Err? ==> r.error == Storage
    {
      Interfere(me);
      var failed := Fails();
      if failed {
        return Err(Storage);
      }
      return Ok((id, sub) in world.processed);
    }

    method QueryViewVersion(me: Session, sub: SubId, a: AggId) returns (r: Result<int>)
      requires Valid()
      modifies this
      ensures Valid() && Rely(cfg, me, old(world), world)
      ensures r.Ok? ==> r.value == ViewVersion(world, sub, a)
      ensures alone ==> world == old(world)
      ensures faults == if r.Ok? then old(faults) else old(faults) + 1
      ensures r.Err? ==> r.error == Storage
    {
      Interfere(me);
      var failed := Fails();
      if failed {
        return Err(Storage);
      }
      return Ok(ViewVersion(world, sub, a));
    }

    method QuerySnapshot(me: Session, a: AggId) returns (r: Result<Option<SnapshotRow>>)
      requires Valid()
      modifies this
      ensures Valid() && Rely(cfg, me, old(world), world)
      ensures r.Ok? ==> r.value == LatestSnapshot(world.snapshots, a)
      ensures alone ==> world == old(world)
      ensures faults == if r.Ok? then old(faults) else old(faults) + 1
      ensures r.Err? ==> r.error == Storage
    {
      Interfere(me);
      var failed := Fails();
      if failed {
        return Err(Storage);
      }
      return Ok(LatestSnapshot(world.snapshots, a));
    }

    method QueryEvents(me: Session, a: AggId, from: int) returns (r: Result<seq<Event>>)
      requires Valid()
      modifies this
      ensures Valid() && Rely(cfg, me, old(world), world)
      ensures r.Ok? ==> r.value == RowsAfter(world.events, a, from)
      ensures alone ==> world == old(world)
      ensures faults == if r.Ok? then old(faults) else old(faults) + 1
      ensures r.Err? ==> r.error == Storage
    {
      Interfere(me);
      var failed := Fails();
      if failed {
        return Err(Storage);
      }
      return Ok(RowsAfter(world.events, a, from));
    }

    // ----- Statements of a transaction -----

    /** Whether a statement of `tx` goes through; a failure poisons it. */
    method Statement(tx: Tx<V>, conflict: bool) returns (err: Error)
      modifies this`faults, tx
      ensures tx.writes == old(tx.writes)
      ensures tx.poisoned <==> !err.Nil?
      ensures old(faults) <= faults <= old(faults) + 1
      ensures err ==
        if old(tx.poisoned) || faults != old(faults) then Storage else if conflict then Concurrency else Nil
    {
      var failed := Fails();
      err := if tx.poisoned || failed then Storage else if conflict then Concurrency else Nil;
      tx.poisoned := !err.Nil?;
    }

    method InsertEvent(tx: Tx<V>, e: Event) returns (err: Error)
      requires Valid()
      modifies this, tx
      ensures Valid() && Rely(cfg, tx.session, old(world), world)
      ensures tx.poisoned <==> !err.Nil?
      ensures old(tx.poisoned) ==> !err.Nil?
      ensures err.Nil? || err.Concurrency? || err.Storage?
      ensures tx.writes == if err.Nil? then old(tx.writes).(events := old(tx.writes).events + [e]) else old(tx.writes)
      ensures err == Concurrency ==> exists x :: x in world.events + old(tx.writes).events && Collides(x, e)
      ensures alone ==> world == old(world)
      ensures old(faults) <= faults <= old(faults) + 1 && (err.Nil? ==> faults == old(faults))
      ensures faults == old(faults) && !old(tx.poisoned) ==>
        err == if exists x :: x in world.events + old(tx.writes).events && Collides(x, e) then Concurrency else Nil
    {
      Interfere(tx.session);
      var rows := world.events + tx.writes.events;
      err := Statement(tx, exists x :: x in rows && Collides(x, e));
      if err.Nil? {
        tx.writes := tx.writes.(events := tx.writes.events + [e]);
      }
    }

    method InsertOutbox(tx: Tx<V>, e: Event) returns (err: Error)
      requires Valid()
      modifies this, tx
      ensures Valid() && Rely(cfg, tx.session, old(world), world)
      ensures tx.poisoned <==> !err.Nil?
      ensures old(tx.poisoned) ==> !err.Nil?
      ensures err.Nil? || err.Storage?
      ensures tx.writes == if err.Nil? then old(tx.writes).(outbox := old(tx.writes).outbox + [e]) else old(tx.writes)
      ensures alone ==> world == old(world)
      ensures old(faults) <= faults <= old(faults) + 1 && (err.Nil? ==> faults == old(faults))
      ensures faults == old(faults) && !old(tx.poisoned) ==>
        (err.Nil? <==> !exists x :: x in OutboxEvents(world.outbox) + old(tx.writes).outbox && x.id == e.id)
    {
      Interfere(tx.session);
      var rows := OutboxEvents(world.outbox) + tx.writes.outbox;
      err := Statement(tx, exists x :: x in rows && x.id == e.id);
      if err.Nil? {
        tx.writes := tx.writes.(outbox := tx.writes.outbox + [e]);
      } else {
        err := Storage;
      }
    }

    method InsertSnapshot(tx: Tx<V>, row: SnapshotRow) returns (err: Error)
      modifies this`faults, tx
      ensures tx.poisoned <==> !err.Nil?
      ensures old(tx.poisoned) ==> !err.Nil?
      ensures tx.writes == if err.Nil? then old(tx.writes).(snapshot := Some(row)) else old(tx.writes)
      ensures old(faults) <= faults <= old(faults) + 1 && (err.Nil? ==> faults == old(faults))
      ensures faults == old(faults) && !old(tx.poisoned) ==> (err.Nil? <==> !refusesSnapshots)
    {
      err := Statement(tx, refusesSnapshots);
      if err.Nil? {
        tx.writes := tx.writes.(snapshot := Some(row));
      }
    }

    /** SELECT ... FOR UPDATE SKIP LOCKED: the oldest unpublished rows that nobody
        holds, locked for the transaction. */
    method SelectForUpdate(tx: Tx<V>) returns (r: Result<seq<Event>>, ghost before: World<V>)
      requires Valid()
      modifies this, tx
      ensures Valid() && Grows(cfg, old(world), world)
      ensures tx.writes == old(tx.writes) && (tx.poisoned <==> r.Err?)
      ensures r.Ok? ==> Holding(world, tx.session, r.value, 0) && |r.value| <= cfg.batchSize
      ensures r.Err? ==> r.error.Storage?
      ensures Rely(cfg, tx.session, old(world), before) && (alone ==> before == old(world))
      ensures if r.Ok? then IsBatch(before, cfg.batchSize, r.value) && world == Lock(before, tx.session, r.value)
        else world == before
      ensures old(faults) <= faults <= old(faults) + 1 && (r.Ok? ==> faults == old(faults))
      ensures faults == old(faults) && !old(tx.poisoned) ==> r.Ok?
    {
      Interfere(tx.session);
      before := world;
      var err := Statement(tx, false);
      if !err.Nil? {
        return Err(Storage), before;
      }
      var batch := Oldest(world, cfg.batchSize);
      LockKeepsInv(cfg, world, tx.session, batch);
      world := Lock(world, tx.session, batch);
      GrowsTransitive(cfg, old(world), before, world);
      return Ok(batch), before;
    }

    /** UPDATE outbox SET published = TRUE WHERE event_id = ANY(ids): the number
        of rows affected. */
    method UpdatePublished(tx: Tx<V>, ids: seq<EventId>) returns (r: Result<nat>)
      requires Valid()
      modifies this, tx
      ensures Valid() && Rely(cfg, tx.session, old(world), world)
      ensures tx.poisoned <==> r.Err?
      ensures r.Ok? ==> r.value == RowsAffected(world.outbox, SetOf(ids))
      ensures tx.writes == if r.Ok? then old(tx.writes).(published := old(tx.writes).published + SetOf(ids))
        else old(tx.writes)
      ensures r.Err? ==> r.error.Storage?
      ensures alone ==> world == old(world)
      ensures old(faults) <= faults <= old(faults) + 1 && (r.Ok? ==> faults == old(faults))
      ensures faults == old(faults) && !old(tx.poisoned) ==> r.Ok?
    {
      Interfere(tx.session);
      var err := Statement(tx, false);
      if !err.Nil? {
        return Err(Storage);
      }
      var chosen := SetOf(ids);
      tx.writes := tx.writes.(published := tx.writes.published + chosen);
      return Ok(RowsAffected(world.outbox, chosen));
    }

    /** The handler, on the row it finds: its write becomes part of the transaction,
        or goes through the pool at once.  A handler that hides failures says nil when
        its write failed: through the pool that leaves no trace, but a transaction is
        poisoned by it. */
    method RunHandler(tx: Tx<V>, sub: SubId, e: Event)
        returns (err: Error, ghost row: Option<Row<V>>, ghost hidden: bool, ghost before: World<V>)
      requires Valid() && sub in cfg.subs
      modifies this, tx
      ensures Valid() && Rely(cfg, tx.session, old(world), before) && Rely(cfg, tx.session, old(world), world)
      ensures row == cfg.subs[sub].handle(ViewRow(before, sub, e.aggId), e)
      ensures world == if cfg.pooled && err.Nil? && !hidden then PooledWrite(cfg, before, sub, e) else before
      ensures err.Nil? || err.Storage?
      ensures hidden ==> cfg.hides && err.Nil? && tx.writes == old(tx.writes)
      ensures cfg.pooled ==> tx.writes == old(tx.writes) && tx.poisoned == old(tx.poisoned)
      ensures !cfg.pooled ==> (tx.poisoned <==> hidden || !err.Nil?)
      ensures !cfg.pooled && !hidden ==>
        tx.writes == if err.Nil? then old(tx.writes).(view := Some(ViewWrite(sub, e, row))) else old(tx.writes)
      ensures old(faults) <= faults <= old(faults) + 1 && (alone ==> before == old(world))
      ensures faults == old(faults) && !old(tx.poisoned) ==> err.Nil? && !hidden
      ensures err.Nil? && !hidden ==> faults == old(faults)
    {
      Interfere(tx.session);
      before := world;
      var written := cfg.subs[sub].handle(ViewRow(world, sub, e.aggId), e);
      row, hidden, err := written, false, Nil;
      RelyReflexive(cfg, tx.session, world);
      if cfg.pooled {
        var fails := Fails();
        if fails {
          err := Storage;
        } else {
          PoolKeepsInv(cfg, world, sub, e);
          world := PooledWrite(cfg, world, sub, e);
        }
      } else {
        err := Statement(tx, false);
        if err.Nil? {
          tx.writes := tx.writes.(view := Some(ViewWrite(sub, e, written)));
        }
      }
      if !err.Nil? && cfg.hides {
        hidden, err := true, Nil;
      }
      RelyTransitive(cfg, tx.session, old(world), before, world);
    }

    /** IdempotencyStore.MarkAsProcessed (infra/postgres/idempotency.go:34-52): a
        unique violation is swallowed, but the transaction is poisoned by it. */
    method MarkAsProcessed(tx: Tx?<V>, id: EventId, sub: SubId) returns (err: Error)
      requires Valid()
      modifies this, tx
      ensures Valid() && (tx == null ==> err == NoTransaction && world == old(world))
      ensures tx != null ==> Rely(cfg, tx.session, old(world), world)
      ensures tx != null && err.Nil? && !tx.poisoned ==>
        && tx.writes == old(tx.writes).(marks := old(tx.writes).marks + {(id, sub)})
        && (id, sub) !in world.processed
      ensures tx != null && err.Nil? ==> !old(tx.poisoned)
      ensures tx != null && err.Nil? && tx.poisoned ==>
        tx.writes == old(tx.writes) && (id, sub) in world.processed + old(tx.writes).marks
      ensures tx != null && !err.Nil? ==> err.Storage? && tx.poisoned && tx.writes == old(tx.writes)
      ensures alone ==> world == old(world)
      ensures old(faults) <= faults <= old(faults) + 1 && (err.Nil? ==> faults == old(faults))
      ensures faults == old(faults) && tx != null && !old(tx.poisoned) ==>
        err.Nil? && (tx.poisoned <==> (id, sub) in world.processed + old(tx.writes).marks)
    {
      if tx == null {
        return NoTransaction;
      }
      Interfere(tx.session);
      err := Statement(tx, (id, sub) in world.processed + tx.writes.marks);
      if err == Concurrency {
        return Nil;
      }
      if err.Nil? {
        tx.writes := tx.writes.(marks := tx.writes.marks + {(id, sub)});
      }
    }
  }

  /** Two event rows that the constraints do not allow together. */
  predicate Collides(x: Event, e: Event) {
    x.id == e.id || (x.aggId == e.aggId && x.version == e.version)
  }
}
