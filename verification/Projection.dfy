/** The projection and the consumer that feeds it (cqrs/projection.go,
    infra/nats/broker.go:112-147): idempotency check, version gate, handler and
    mark in one transaction, retries, ack on nil and nak on error.

    Without faults and interference the methods are the functions of `Convergence`;
    with them, nil still means processed, whatever the handler does, and every delivery
    is an interleaving of a worker's machine steps with those of others (`Moves`). */
module Projection {
  import opened Events
  import opened World
  import opened Projecting
  import opened Relaying
  import opened Machine
  import opened Safety
  import opened Postgres
  import opened Moves
  import opened Convergence

  /** Committing a handler's row together with its mark is safe now and later:
      either the mark is refused or the row is still the right one. */
  lemma HandleIsSafe<S(!new), V(!new)>(
      cfg: Config<S, V>, me: Session, d: World<V>, sub: SubId, e: Event, row: Option<Row<V>>)
    requires RowReady(cfg, d, sub, e, row)
    ensures CommitSafe(cfg, me, d, HandleWrites(sub, e, row))
  {
    var w := HandleWrites(sub, e, row);
    forall d' | Rely(cfg, me, d, d') && Admits(d', w)
      ensures Guarantee(cfg, me, d', Committed(d', me, w))
    {
      RowReadyStable(cfg, d, d', sub, e, row);
      MarkAdmitsNone(cfg, d', w, sub, e);
      HandleKeepsInv(cfg, d', sub, e, row);
      UnlockKeepsInv(cfg, Merge(d', w), me);
      GrowsTransitive(cfg, d', Merge(d', w), Committed(d', me, w));
    }
  }

  lemma RanThenMarked<S(!new), V(!new)>(
      cfg: Config<S, V>, d: World<V>, ran: World<V>, marked: World<V>, sub: SubId, e: Event)
    requires Inv(cfg, ran) && Due(cfg, d, sub, e) && Grows(cfg, d, ran) && Grows(cfg, ran, marked)
    ensures Grows(cfg, d, marked)
    ensures RowReady(cfg, marked, sub, e, cfg.subs[sub].handle(ViewRow(ran, sub, e.aggId), e))
  {
    GrowsTransitive(cfg, d, ran, marked);
    DueStable(cfg, d, ran, sub, e);
    HandlerMakesRowReady(cfg, ran, sub, e);
    RowReadyStable(cfg, ran, marked, sub, e, cfg.subs[sub].handle(ViewRow(ran, sub, e.aggId), e));
  }

  /** What is pending after handler and mark may be committed now or later. */
  lemma TxIsSafe<S(!new), V(!new)>(
      cfg: Config<S, V>, me: Session, d: World<V>, ran: World<V>, d': World<V>, sub: SubId, e: Event, stage: Stage<V>)
    requires Due(cfg, d, sub, e) && Rely(cfg, me, d, ran) && Rely(cfg, me, ran, d')
    requires cfg.pooled || (stage.Ran? && stage.row == cfg.subs[sub].handle(ViewRow(ran, sub, e.aggId), e))
    ensures CommitSafe(cfg, me, d', TxWrites(cfg, sub, e, stage))
  {
    if cfg.pooled {
      MarkIsSafe(cfg, me, d', sub, e);
    } else {
      RanThenMarked(cfg, d, ran, d', sub, e);
      HandleIsSafe(cfg, me, d', sub, e, stage.row);
    }
  }

  /** The mark alone may be committed later if the view has the event, or if the
      handler writes elsewhere. */
  lemma MarkIsSafe<S(!new), V(!new)>(cfg: Config<S, V>, me: Session, d: World<V>, sub: SubId, e: Event)
    requires Inv(cfg, d) && e in d.events
    requires Followed(cfg, d, sub, e.aggId) ==> e.version <= ViewVersion(d, sub, e.aggId)
    ensures CommitSafe(cfg, me, d, MarkWrites(sub, e))
  {
    var w: Writes<V> := MarkWrites(sub, e);
    forall d' | Rely(cfg, me, d, d') && Admits(d', w)
      ensures Guarantee(cfg, me, d', Committed(d', me, w))
    {
      if Followed(cfg, d', sub, e.aggId) {
        FollowedBefore(cfg, d, d', sub, e.aggId);
        assert ViewVersion(d, sub, e.aggId) <= ViewVersion(d', sub, e.aggId);
      }
      MarkKeepsInv(cfg, d', sub, e);
      UnlockKeepsInv(cfg, Merge(d', w), me);
      GrowsTransitive(cfg, d', Merge(d', w), Committed(d', me, w));
    }
  }

  class Projection<S(!new), V(!new)> {
    const db: Backend<S, V>
    const sub: SubId
    const me: Session

    constructor (db: Backend<S, V>, sub: SubId, me: Session)
      ensures this.db == db && this.sub == sub && this.me == me
    {
      this.db, this.sub, this.me := db, sub, me;
    }

    /** The delivery has come this far. */
    ghost predicate Came(t: Trace<V>, evt: Event, wk: Worker<V>)
      reads db
    {
      Along(db.cfg, me, t, sub, evt, db.world, wk)
    }

    /** The end of a transaction that marks: nil means that this transaction, or
        another one before it, has marked the event. */
    method CommitMark(tx: Tx<V>, evt: Event, ghost t: Trace<V>, ghost v: int, ghost w: Writes<V>)
        returns (err: Error, ghost t': Trace<V>)
      requires db.Valid() && tx.session == me && OnlyMarks(w, sub, evt) && (!tx.poisoned ==> w == tx.writes)
      requires if tx.poisoned then Processed(db.world, sub, evt) else CommitSafe(db.cfg, me, db.world, w)
      modifies db
      ensures db.Valid() && Grows(db.cfg, old(db.world), db.world)
      ensures err.Nil? || err.Storage?
      ensures old(db.faults) <= db.faults
      ensures !err.Nil? && !Processed(db.world, sub, evt) ==> old(db.faults) < db.faults
      ensures err.Nil? ==> Processed(db.world, sub, evt)
      ensures db.Calm(old(db.faults)) && !Processed(old(db.world), sub, evt) && NoLocks(old(db.world), me) ==>
        err.Nil? && db.world == Merge(old(db.world), tx.writes)
      ensures old(Came(t, evt, InTx(sub, t.i, v, Marked(w, tx.poisoned)))) ==>
        t'.start == t.start && t'.i == t.i &&
        Came(t', evt, if evt.version == v + 1 && !err.Nil? then Attempting(sub, t.i) else Finished(sub, t.i, err.Nil?))
    {
      ghost var d, poisoned := db.world, tx.poisoned;
      if !poisoned {
        MarkAdmitsNone(db.cfg, d, w, sub, evt);
      }
      ghost var effect, before;
      err, effect, before := db.Commit(tx);
      if !poisoned {
        MarkAdmitsNone(db.cfg, before, w, sub, evt);
      }
      t' := t;
      if Along(db.cfg, me, t, sub, evt, d, InTx(sub, t.i, v, Marked(w, poisoned))) {
        t' := CommitMoves(db.cfg, me, t, sub, evt, d, before, v, w, poisoned, effect, err.Nil?, db.world);
      }
      if NoLocks(d, me) {
        UnlockNothing(Merge(d, w), me);
      }
    }

    /** Giving up inside a transaction, which is rolled back. */
    method GiveUp(tx: Tx<V>, evt: Event, again: bool, ghost t: Trace<V>, ghost wk: Worker<V>)
        returns (ghost t': Trace<V>)
      requires db.Valid() && tx.session == me && wk.InTx?
      modifies db`world
      ensures db.Valid() && Grows(db.cfg, old(db.world), db.world)
      ensures old(Came(t, evt, wk)) ==>
        t'.start == t.start && t'.i == t.i &&
        Came(t', evt, if again then Attempting(sub, t.i) else Finished(sub, t.i, false))
    {
      ghost var d := db.world;
      db.Rollback(tx);
      if NoLocks(d, me) {
        UnlockNothing(d, me);
      }
      t' := GivenUp(db.cfg, me, t, sub, evt, db.world, wk, again);
    }

    /** The mark alone, and the end of its transaction. */
    method MarkInTx(tx: Tx<V>, evt: Event, ghost t: Trace<V>, ghost v: int) returns (err: Error, ghost t': Trace<V>)
      requires db.Valid() && sub in db.cfg.subs && evt in db.world.events && evt.version <= v
      requires evt.version <= ViewVersion(db.world, sub, evt.aggId)
      requires (tx as object) != db && tx.session == me && tx.writes == NoWrites() && !tx.poisoned
      modifies db, tx
      ensures db.Valid() && Grows(db.cfg, old(db.world), db.world)
      ensures err.Nil? || err.Storage?
      ensures old(db.faults) <= db.faults
      ensures !err.Nil? && !Processed(db.world, sub, evt) ==> old(db.faults) < db.faults
      ensures err.Nil? ==> Processed(db.world, sub, evt)
      ensures db.Calm(old(db.faults)) && !Processed(old(db.world), sub, evt) && NoLocks(old(db.world), me) ==>
        err.Nil? && db.world == Merge(old(db.world), MarkWrites(sub, evt))
      ensures old(Came(t, evt, InTx(sub, t.i, v, Begun))) ==>
        t'.start == t.start && t'.i == t.i && Came(t', evt, Finished(sub, t.i, err.Nil?))
    {
      ghost var d := db.world;
      MarkIsSafe(db.cfg, me, d, sub, evt);
      err := db.MarkAsProcessed(tx, evt.id, sub);
      ghost var marked := db.world;
      t' := MarkOrWait(db.cfg, me, t, sub, evt, d, marked, v, Begun, err.Nil?);
      if !err.Nil? {
        t' := GiveUp(tx, evt, false, t', InTx(sub, t.i, v, Begun));
        GrowsTransitive(db.cfg, d, marked, db.world);
        return err, t';
      }
      CommitSafeStable(db.cfg, me, d, marked, MarkWrites(sub, evt));
      assert {} + {(evt.id, sub)} == {(evt.id, sub)};
      err, t' := CommitMark(tx, evt, t', v, MarkWrites(sub, evt));
      GrowsTransitive(db.cfg, d, marked, db.world);
    }

    /** Marking an event that the view is already past (cqrs/projection.go:116-118). */
    method MarkOld(evt: Event, ghost t: Trace<V>, ghost v: int) returns (err: Error, ghost t': Trace<V>)
      requires db.Valid() && sub in db.cfg.subs && evt in db.world.events
      requires evt.version <= v && evt.version <= ViewVersion(db.world, sub, evt.aggId)
      modifies db
      ensures db.Valid() && Grows(db.cfg, old(db.world), db.world)
      ensures err.Nil? || err.Storage?
      ensures old(db.faults) <= db.faults
      ensures !err.Nil? && !Processed(db.world, sub, evt) ==> old(db.faults) < db.faults
      ensures err.Nil? ==> Processed(db.world, sub, evt)
      ensures Followed(db.cfg, old(db.world), sub, evt.aggId) ==> Processed(db.world, sub, evt)
      ensures db.Calm(old(db.faults)) && !Processed(old(db.world), sub, evt) && NoLocks(old(db.world), me) ==>
        err.Nil? && db.world == Merge(old(db.world), MarkWrites(sub, evt))
      ensures old(Came(t, evt, InTx(sub, t.i, v, Begun))) ==>
        t'.start == t.start && t'.i == t.i && Came(t', evt, Finished(sub, t.i, err.Nil?))
    {
      GrowsReflexive(db.cfg, db.world);
      PastIsProcessed(db.cfg, db.world, db.world, db.world, sub, evt);
      var tx, failed := db.Begin(me);
      if tx == null {
        t' := GivenUp(db.cfg, me, t, sub, evt, db.world, InTx(sub, t.i, v, Begun), false);
        return failed, t';
      }
      err, t' := MarkInTx(tx, evt, t, v);
    }

    /** The body of the transaction: the handler, then the mark.  It may end in a
        poisoned transaction, but then the event is processed already. */
    method HandleInTx(tx: Tx<V>, evt: Event, ghost t: Trace<V>, ghost v: int)
        returns (err: Error, ghost t': Trace<V>, ghost stage: Stage<V>)
      requires db.Valid() && Due(db.cfg, db.world, sub, evt) && (tx as object) != db && evt.version == v + 1
      requires tx.writes == NoWrites() && !tx.poisoned && tx.session == me
      modifies db, tx
      ensures db.Valid() && Grows(db.cfg, old(db.world), db.world)
      ensures db.alone ==> db.world.locks == old(db.world).locks
      ensures err.Nil? || err.Storage?
      ensures old(db.faults) <= db.faults
      ensures !err.Nil? && !Processed(db.world, sub, evt) ==> old(db.faults) < db.faults
      ensures err.Nil? ==> stage.Marked? && stage.poisoned == tx.poisoned && OnlyMarks(stage.writes, sub, evt)
      ensures err.Nil? ==>
        if tx.poisoned then Processed(db.world, sub, evt)
        else stage.writes == tx.writes && CommitSafe(db.cfg, me, db.world, tx.writes)
      ensures db.Calm(old(db.faults)) && !Processed(old(db.world), sub, evt) ==>
        && err.Nil? && !tx.poisoned && !Processed(db.world, sub, evt)
        && Merge(db.world, tx.writes) == RunCalmly(db.cfg, old(db.world), sub, evt)
      ensures old(Came(t, evt, InTx(sub, t.i, v, Begun))) ==>
        t'.start == t.start && t'.i == t.i && Came(t', evt, InTx(sub, t.i, v, stage))
    {
      ghost var d := db.world;
      ghost var row, hidden, before;
      err, row, hidden, before := db.RunHandler(tx, sub, evt);
      ghost var ran := db.world;
      stage := if !err.Nil? || (hidden && !db.cfg.pooled) then Begun else if hidden then Hidden else Ran(row);
      t' := RunMoves(db.cfg, me, t, sub, evt, d, before, v, stage, ran);
      if !err.Nil? {
        return;
      }
      err := db.MarkAsProcessed(tx, evt.id, sub);
      assert {} + {(evt.id, sub)} == {(evt.id, sub)};
      t' := MarkOrWait(db.cfg, me, t', sub, evt, ran, db.world, v, stage, err.Nil?);
      GrowsTransitive(db.cfg, d, ran, db.world);
      if err.Nil? {
        TxIsSafe(db.cfg, me, d, ran, db.world, sub, evt, stage);
        stage := Marked(TxWrites(db.cfg, sub, evt, stage), Processed(db.world, sub, evt));
      }
    }

    /** The handler and the mark in one transaction (cqrs/projection.go:129-142).  The
        version gate may have been passed long ago; what matters is that it was. */
    method RunAndMark(evt: Event, ghost t: Trace<V>, ghost v: int) returns (err: Error, ghost t': Trace<V>)
      requires db.Valid() && Due(db.cfg, db.world, sub, evt) && evt.version == v + 1
      modifies db
      ensures db.Valid() && Grows(db.cfg, old(db.world), db.world)
      ensures err.Nil? || err.Storage?
      ensures old(db.faults) <= db.faults
      ensures !err.Nil? && !Processed(db.world, sub, evt) ==> old(db.faults) < db.faults
      ensures err.Nil? ==> Processed(db.world, sub, evt)
      ensures db.Calm(old(db.faults)) && !Processed(old(db.world), sub, evt) && NoLocks(old(db.world), me) ==>
        err.Nil? && db.world == RunCalmly(db.cfg, old(db.world), sub, evt)
      ensures old(Came(t, evt, InTx(sub, t.i, v, Begun))) ==>
        t'.start == t.start && t'.i == t.i &&
        Came(t', evt, if err.Nil? then Finished(sub, t.i, true) else Attempting(sub, t.i))
    {
      ghost var d := db.world;
      GrowsReflexive(db.cfg, d);
      var tx, failed := db.Begin(me);
      if tx == null {
        t' := GivenUp(db.cfg, me, t, sub, evt, d, InTx(sub, t.i, v, Begun), true);
        return failed, t';
      }
      ghost var stage;
      err, t', stage := HandleInTx(tx, evt, t, v);
      ghost var handled := db.world;
      if !err.Nil? {
        t' := GiveUp(tx, evt, true, t', InTx(sub, t.i, v, stage));
        GrowsTransitive(db.cfg, d, handled, db.world);
        return err, t';
      }
      err, t' := CommitMark(tx, evt, t', v, stage.writes);
      GrowsTransitive(db.cfg, d, handled, db.world);
    }

    /** One round of the retry loop; `stop` if backoff.Permanent ends it.  `at` is the
        state in which the version gate read the view: too early or too old for that
        version are the only reasons to stop, and any other error is a fault, or an
        event that somebody else has processed. */
    method Attempt(evt: Event, ghost t: Trace<V>)
        returns (err: Error, stop: bool, ghost at: World<V>, ghost t': Trace<V>)
      requires db.Valid() && sub in db.cfg.subs && evt in db.world.events
      modifies db
      ensures db.Valid() && Between(db.cfg, old(db.world), at, db.world)
      ensures err.Nil? ==> Processed(db.world, sub, evt)
      ensures err.OutOfOrder? ==> stop && ViewVersion(db.world, sub, evt.aggId) + 1 < evt.version
      ensures stop ==> err.Nil? || err.OutOfOrder? || evt.version <= ViewVersion(at, sub, evt.aggId)
      ensures stop && Followed(db.cfg, db.world, sub, evt.aggId) ==>
        err.OutOfOrder? || Processed(db.world, sub, evt)
      ensures old(db.faults) <= db.faults
      ensures !err.Nil? && !err.OutOfOrder? && !Processed(db.world, sub, evt) ==> old(db.faults) < db.faults
      ensures db.Calm(old(db.faults)) && !Processed(old(db.world), sub, evt) && NoLocks(old(db.world), me) ==>
        && (db.world, err.Nil?) == HandleCalmly(db.cfg, old(db.world), sub, evt)
        && (err.Nil? || err.OutOfOrder?)
      ensures old(Came(t, evt, Attempting(sub, t.i))) ==>
        t'.start == t.start && t'.i == t.i &&
        Came(t', evt, if err.Nil? || stop then Finished(sub, t.i, err.Nil?) else Attempting(sub, t.i))
    {
      ghost var d := db.world;
      var version := db.QueryViewVersion(me, sub, evt.aggId);
      at := db.world;
      GrowsReflexive(db.cfg, at);
      t' := ReadMoves(db.cfg, me, t, sub, evt, d, at, version.Ok?);
      if version.Err? {
        return version.error, false, at, t';
      }
      if evt.version <= version.value {
        err, t' := MarkOld(evt, t', version.value);
        GrowsTransitive(db.cfg, d, at, db.world);
        PastIsProcessed(db.cfg, d, at, db.world, sub, evt);
        return err, true, at, t';
      }
      if evt.version != version.value + 1 {
        return OutOfOrder, true, at, t';
      }
      err, t' := RunAndMark(evt, t', version.value);
      GrowsTransitive(db.cfg, d, at, db.world);
      return err, false, at, t';
    }

    /** backoff.Retry: further attempts until one stops it or none is left.  It gives up
        early only on events that the last attempt found too early or too old, whatever
        the handler; any other error has cost a fault in each attempt, unless somebody
        else has processed the event. */
    method Retry(evt: Event, retries: nat, ghost t: Trace<V>)
        returns (err: Error, ghost attempts: nat, ghost at: World<V>, ghost t': Trace<V>)
      requires db.Valid() && sub in db.cfg.subs && evt in db.world.events
      modifies db
      ensures db.Valid() && Between(db.cfg, old(db.world), at, db.world)
      ensures err.Nil? ==> Processed(db.world, sub, evt)
      ensures err.OutOfOrder? ==> ViewVersion(db.world, sub, evt.aggId) + 1 < evt.version
      ensures 0 < attempts <= retries + 1
      ensures attempts <= retries ==>
        err.Nil? || err.OutOfOrder? || evt.version <= ViewVersion(at, sub, evt.aggId)
      ensures attempts <= retries && Followed(db.cfg, db.world, sub, evt.aggId) ==>
        err.OutOfOrder? || Processed(db.world, sub, evt)
      ensures old(db.faults) <= db.faults
      ensures !err.Nil? && !err.OutOfOrder? && !Processed(db.world, sub, evt) ==>
        old(db.faults) + attempts <= db.faults
      ensures db.Calm(old(db.faults)) && !Processed(old(db.world), sub, evt) && NoLocks(old(db.world), me) ==>
        (db.world, err.Nil?) == HandleCalmly(db.cfg, old(db.world), sub, evt)
      ensures old(Came(t, evt, Attempting(sub, t.i))) ==>
        t'.start == t.start && t'.i == t.i && Came(t', evt, Finished(sub, t.i, err.Nil?))
    {
      ghost var d := db.world;
      var stop;
      err, stop, at, t' := Attempt(evt, t);
      attempts := 1;
      ghost var done, first, result, failures := err.Nil? || stop, db.world, err, db.faults;
      for k := 0 to retries
        invariant db.Valid() && Between(db.cfg, d, at, db.world)
        invariant err.Nil? ==> Processed(db.world, sub, evt)
        invariant err.OutOfOrder? ==> stop && ViewVersion(db.world, sub, evt.aggId) + 1 < evt.version
        invariant stop ==> err.Nil? || err.OutOfOrder? || evt.version <= ViewVersion(at, sub, evt.aggId)
        invariant stop && Followed(db.cfg, db.world, sub, evt.aggId) ==>
          err.OutOfOrder? || Processed(db.world, sub, evt)
        invariant attempts == k + 1 && old(db.faults) <= failures <= db.faults
        invariant !err.Nil? && !err.OutOfOrder? && !Processed(db.world, sub, evt) ==>
          old(db.faults) + attempts <= db.faults
        invariant done ==> (err.Nil? || stop) && db.world == first && err == result
        invariant old(Came(t, evt, Attempting(sub, t.i))) ==>
          t'.start == t.start && t'.i == t.i &&
          Came(t', evt, if err.Nil? || stop then Finished(sub, t.i, err.Nil?) else Attempting(sub, t.i))
      {
        if err.Nil? || stop {
          break;
        }
        ghost var before := db.world;
        err, stop, at, t' := Attempt(evt, t');
        attempts := attempts + 1;
        BetweenLater(db.cfg, d, before, at, db.world);
      }
      t' := Ended(db.cfg, me, t', sub, evt, db.world, err.Nil?, stop);
    }

    /** Handle returns nil only for events that are durably processed.  On a followed
        stream the handler's effect has been committed once if the event is processed,
        and never otherwise, however many attempts were made and whatever was reported
        about their commits.  After an error, attempts are left over only if the last one,
        which read the view in state `at`, found the event too early or too old; any other
        error has cost a fault in each attempt, unless the event is processed.  Whatever
        the others do meanwhile, what it does itself to message i is what a worker of the
        machine does, step by step. */
    method Handle(evt: Event, retries: nat, ghost i: nat)
        returns (err: Error, ghost attempts: nat, ghost at: World<V>, ghost t: Trace<V>)
      requires db.Valid() && sub in db.cfg.subs && i < |db.world.messages| && db.world.messages[i] == evt
      modifies db
      ensures db.Valid() && Between(db.cfg, old(db.world), at, db.world)
      ensures err.Nil? ==> Processed(db.world, sub, evt)
      ensures AtMostOnce(db.cfg, db.world, sub, evt)
      ensures err.OutOfOrder? ==> ViewVersion(db.world, sub, evt.aggId) + 1 < evt.version
      ensures attempts <= retries + 1
      ensures 0 < attempts <= retries ==>
        err.Nil? || err.OutOfOrder? || evt.version <= ViewVersion(at, sub, evt.aggId)
      ensures 0 < attempts <= retries && Followed(db.cfg, db.world, sub, evt.aggId) ==>
        err.OutOfOrder? || Processed(db.world, sub, evt)
      ensures old(db.faults) <= db.faults
      ensures !err.Nil? && !err.OutOfOrder? && !Processed(db.world, sub, evt) ==>
        old(db.faults) < db.faults && old(db.faults) + attempts <= db.faults
      ensures db.Calm(old(db.faults)) && NoLocks(old(db.world), me) ==>
        (db.world, err.Nil?) == HandleCalmly(db.cfg, old(db.world), sub, evt)
      ensures NoLocks(old(db.world), me) ==>
        t.start == old(db.world) && t.i == i && Came(t, evt, Finished(sub, i, err.Nil?))
    {
      ghost var d := db.world;
      assert evt in d.messages;
      var processed := db.QueryProcessed(me, evt.id, sub);
      at := db.world;
      GrowsReflexive(db.cfg, at);
      CountedOnce(db.cfg, at, sub, evt);
      t := CheckMoves(db.cfg, me, sub, i, d, at, processed.Err?);
      if processed.Err? {
        return processed.error, 0, at, t;
      }
      if processed.value {
        return Nil, 0, at, t;
      }
      ghost var mid := at;
      err, attempts, at, t := Retry(evt, retries, t);
      BetweenLater(db.cfg, d, mid, at, db.world);
      CountedOnce(db.cfg, db.world, sub, evt);
    }

    /** The messages of one fetch, in the order in which the broker gave them
        out: ack on nil, nak on error.  Every one of them is handled to its end,
        whatever happened to those before it. */
    method Consume(fetched: seq<nat>, retries: nat) returns (ghost handled: seq<Delivery<V>>)
      requires db.Valid() && sub in db.cfg.subs && Deliverable(db.cfg, db.world, sub, fetched)
      modifies db
      ensures db.Valid() && Grows(db.cfg, old(db.world), db.world) && old(db.faults) <= db.faults
      ensures NoLocks(old(db.world), me) ==>
        && NoLocks(db.world, me)
        && AllCompleted(db.cfg, me, sub, old(db.world), fetched, handled, db.world, db.faults == old(db.faults))
      ensures db.Calm(old(db.faults)) && NoLocks(old(db.world), me) ==>
        db.world == Pass(db.cfg, old(db.world), sub, fetched)
    {
      ghost var d := db.world;
      handled := [];
      GrowsReflexive(db.cfg, d);
      assert fetched[..|fetched|] == fetched == fetched[0..];
      for k := 0 to |fetched|
        invariant db.Valid() && Grows(db.cfg, d, db.world) && old(db.faults) <= db.faults
        invariant NoLocks(d, me) ==>
          && NoLocks(db.world, me)
          && AllCompleted(db.cfg, me, sub, d, fetched[..k], handled, db.world, db.faults == old(db.faults))
        invariant db.Calm(old(db.faults)) && NoLocks(d, me) ==>
          Pass(db.cfg, d, sub, fetched) == Pass(db.cfg, db.world, sub, fetched[k..])
      {
        ghost var before, calm := db.world, db.faults == old(db.faults);
        assert fetched[k] in fetched;
        ghost var h := Deliver(fetched[k], retries);
        GrowsTransitive(db.cfg, d, before, db.world);
        OneMoreCompleted(db.cfg, me, sub, d, fetched, k, handled, before, h, db.world,
          calm, db.faults == old(db.faults), NoLocks(d, me));
        handled := handled + [h];
        assert fetched[k..][1..] == fetched[k + 1..];
      }
    }

    /** One message: handled, and then ack or nak. */
    method Deliver(i: nat, retries: nat) returns (ghost h: Delivery<V>)
      requires db.Valid() && sub in db.cfg.subs && Deliverable(db.cfg, db.world, sub, [i])
      modifies db
      ensures db.Valid() && Grows(db.cfg, old(db.world), db.world) && old(db.faults) <= db.faults
      ensures NoLocks(old(db.world), me) ==>
        && NoLocks(db.world, me) && h.t.start == old(db.world) && h.t.i == i
        && Completed(db.cfg, me, sub, old(db.world), h, db.world, db.faults == old(db.faults))
      ensures db.Calm(old(db.faults)) && NoLocks(old(db.world), me) ==>
        db.world == Redeliver(db.cfg, old(db.world), sub, i)
    {
      ghost var d := db.world;
      assert i in [i];
      GrowsReflexive(db.cfg, d);
      var evt := db.world.messages[i];
      ghost var attempts, at, t;
      var err;
      err, attempts, at, t := Handle(evt, retries, i);
      h := Delivery(t, db.world, err.Nil?);
      GrowsReflexive(db.cfg, h.end);
      if err.Nil? {
        db.Ack(me, i, sub);
        GrowsTransitive(db.cfg, d, h.end, db.world);
      }
      DeliveredCalmly(db.cfg, d, sub, i);
    }

    /** The subscriber's loop over successive fetches.  Undisturbed, once the
        outbox is drained and the fetches cover what is un-acknowledged, it brings
        every live view on the topic to the fold of its whole stream. */
    method Subscribe(fetches: seq<seq<nat>>, retries: nat) returns (ghost handled: seq<seq<Delivery<V>>>)
      requires db.Valid() && sub in db.cfg.subs
      requires forall k :: 0 <= k < |fetches| ==> Deliverable(db.cfg, db.world, sub, fetches[k])
      modifies db
      ensures db.Valid() && Grows(db.cfg, old(db.world), db.world)
      ensures |handled| == |fetches|
      ensures NoLocks(old(db.world), me) ==> forall k :: 0 <= k < |fetches| ==>
        AllCompleted(db.cfg, me, sub, old(db.world), fetches[k], handled[k], db.world, db.faults == old(db.faults))
      ensures db.Calm(old(db.faults)) && NoLocks(old(db.world), me) ==>
        db.world == Passes(db.cfg, old(db.world), sub, fetches)
      ensures db.Calm(old(db.faults)) && NoLocks(old(db.world), me) ==>
        OutboxDrained(old(db.world)) && AllCover(db.cfg, old(db.world), sub, fetches) ==>
        forall a :: Live(db.cfg, old(db.world), sub, a) && OnTopic(db.cfg, old(db.world), sub, a) ==>
        |Stream(old(db.world).events, a)| <= |fetches| ==>
        ViewRow(db.world, sub, a) == ViewFold(db.cfg.subs[sub], Stream(old(db.world).events, a))
    {
      ghost var d := db.world;
      handled := [];
      GrowsReflexive(db.cfg, d);
      for k := 0 to |fetches|
        invariant db.Valid() && Grows(db.cfg, d, db.world) && old(db.faults) <= db.faults
        invariant |handled| == k && (NoLocks(d, me) ==> NoLocks(db.world, me))
        invariant NoLocks(d, me) ==> forall j :: 0 <= j < k ==>
          AllCompleted(db.cfg, me, sub, d, fetches[j], handled[j], db.world, db.faults == old(db.faults))
        invariant db.Calm(old(db.faults)) && NoLocks(d, me) ==>
          Passes(db.cfg, d, sub, fetches) == Passes(db.cfg, db.world, sub, fetches[k..])
      {
        ghost var before, calm := db.world, db.faults == old(db.faults);
        StillDeliverable(db.cfg, d, before, sub, fetches[k]);
        ghost var hs := Consume(fetches[k], retries);
        GrowsTransitive(db.cfg, d, before, db.world);
        RoundsLater(db.cfg, me, sub, d, fetches, k, handled, before, hs, db.world,
          calm, db.faults == old(db.faults), NoLocks(d, me));
        handled := handled + [hs];
        assert fetches[k..][1..] == fetches[k + 1..];
      }
      if db.Calm(old(db.faults)) && NoLocks(d, me) && OutboxDrained(d) && AllCover(db.cfg, d, sub, fetches) {
        forall a | Live(db.cfg, d, sub, a) && OnTopic(db.cfg, d, sub, a) && |Stream(d.events, a)| <= |fetches|
          ensures ViewRow(db.world, sub, a) == ViewFold(db.cfg.subs[sub], Stream(d.events, a))
        {
          ViewsConverge(db.cfg, d, sub, fetches, a);
        }
      }
    }
  }

  /** `at` was a state between the other two. */
  ghost predicate Between<S(!new), V(!new)>(cfg: Config<S, V>, d: World<V>, at: World<V>, d': World<V>) {
    Grows(cfg, d, d') && Grows(cfg, d, at) && Grows(cfg, at, d')
  }

  /** An event that the view of a followed stream was past at some moment is processed
      by now. */
  lemma PastIsProcessed<S(!new), V(!new)>(
      cfg: Config<S, V>, d: World<V>, at: World<V>, d': World<V>, sub: SubId, e: Event)
    requires Inv(cfg, at) && Between(cfg, d, at, d') && e in d.events
    ensures Followed(cfg, d', sub, e.aggId) && e.version <= ViewVersion(at, sub, e.aggId) ==> Processed(d', sub, e)
  {
    if Followed(cfg, d', sub, e.aggId) && e.version <= ViewVersion(at, sub, e.aggId) {
      FollowedBefore(cfg, at, d', sub, e.aggId);
      OldEventIsProcessed(cfg, at, sub, e);
    }
  }

  lemma BetweenLater<S(!new), V(!new)>(cfg: Config<S, V>, d: World<V>, mid: World<V>, at: World<V>, d': World<V>)
    requires Grows(cfg, d, mid) && Between(cfg, mid, at, d')
    ensures Between(cfg, d, at, d')
  {
    GrowsTransitive(cfg, d, mid, at);
    GrowsTransitive(cfg, d, mid, d');
  }

  /** The handling of a message: its trace, the state at its end, and whether it ended
      with nil. */
  datatype Delivery<+V> = Delivery(t: Trace<V>, end: World<V>, nil: bool)

  /** Between two states the message was handled to its end, and acknowledged if that was
      nil and nothing failed. */
  ghost predicate Completed<S(!new), V(!new)>(
      cfg: Config<S, V>, me: Session, sub: SubId, d: World<V>, h: Delivery<V>, d': World<V>, calm: bool) {
    && Grows(cfg, d, h.t.start) && Grows(cfg, h.end, d')
    && h.t.i < |h.t.start.messages|
    && Along(cfg, me, h.t, sub, h.t.start.messages[h.t.i], h.end, Finished(sub, h.t.i, h.nil))
    && (calm && h.nil ==> (h.t.i, sub) in d'.acked)
  }

  ghost predicate AllCompleted<S(!new), V(!new)>(
      cfg: Config<S, V>, me: Session, sub: SubId, d: World<V>, fetched: seq<nat>, hs: seq<Delivery<V>>, d': World<V>,
      calm: bool) {
    && |hs| == |fetched|
    && forall k :: 0 <= k < |hs| ==> hs[k].t.i == fetched[k] && Completed(cfg, me, sub, d, hs[k], d', calm)
  }

  lemma CompletedLater<S(!new), V(!new)>(
      cfg: Config<S, V>, me: Session, sub: SubId, d0: World<V>, d: World<V>, h: Delivery<V>, d': World<V>,
      d'': World<V>, calm: bool, calm': bool)
    requires Grows(cfg, d0, d) && Completed(cfg, me, sub, d, h, d', calm) && Grows(cfg, d', d'') && (calm' ==> calm)
    ensures Completed(cfg, me, sub, d0, h, d'', calm')
  {
    GrowsTransitive(cfg, d0, d, h.t.start);
    GrowsTransitive(cfg, h.end, d', d'');
  }

  lemma AllCompletedLater<S(!new), V(!new)>(
      cfg: Config<S, V>, me: Session, sub: SubId, d0: World<V>, d: World<V>, fetched: seq<nat>, hs: seq<Delivery<V>>,
      d': World<V>, d'': World<V>, calm: bool, calm': bool)
    requires Grows(cfg, d0, d) && Grows(cfg, d', d'') && (calm' ==> calm)
    requires AllCompleted(cfg, me, sub, d, fetched, hs, d', calm)
    ensures AllCompleted(cfg, me, sub, d0, fetched, hs, d'', calm')
  {
    forall k | 0 <= k < |hs|
      ensures Completed(cfg, me, sub, d0, hs[k], d'', calm')
    {
      CompletedLater(cfg, me, sub, d0, d, hs[k], d', d'', calm, calm');
    }
  }

  lemma OneMoreCompleted<S(!new), V(!new)>(
      cfg: Config<S, V>, me: Session, sub: SubId, d: World<V>, fetched: seq<nat>, k: nat, hs: seq<Delivery<V>>,
      before: World<V>, h: Delivery<V>, d': World<V>, calm: bool, calm': bool, free: bool)
    requires k < |fetched| && Grows(cfg, d, before) && Grows(cfg, before, d') && (calm' ==> calm)
    requires free ==> AllCompleted(cfg, me, sub, d, fetched[..k], hs, before, calm)
    requires free ==> h.t.i == fetched[k] && Completed(cfg, me, sub, before, h, d', calm')
    ensures free ==> AllCompleted(cfg, me, sub, d, fetched[..k + 1], hs + [h], d', calm')
  {
    if free {
      GrowsReflexive(cfg, d);
      GrowsReflexive(cfg, d');
      AllCompletedLater(cfg, me, sub, d, d, fetched[..k], hs, before, d', calm, calm');
      CompletedLater(cfg, me, sub, d, before, h, d', d', calm', calm');
    }
  }

  lemma RoundsLater<S(!new), V(!new)>(
      cfg: Config<S, V>, me: Session, sub: SubId, d: World<V>, fetches: seq<seq<nat>>, k: nat,
      rounds: seq<seq<Delivery<V>>>, before: World<V>, hs: seq<Delivery<V>>, d': World<V>, calm: bool, calm': bool,
      free: bool)
    requires k < |fetches| && |rounds| == k && Grows(cfg, d, before) && Grows(cfg, before, d') && (calm' ==> calm)
    requires free ==> forall j :: 0 <= j < k ==>
      AllCompleted(cfg, me, sub, d, fetches[j], rounds[j], before, calm)
    requires free ==> AllCompleted(cfg, me, sub, before, fetches[k], hs, d', calm')
    ensures free ==> forall j :: 0 <= j < k + 1 ==>
      AllCompleted(cfg, me, sub, d, fetches[j], (rounds + [hs])[j], d', calm')
  {
    if free {
      GrowsReflexive(cfg, d);
      GrowsReflexive(cfg, d');
      forall j | 0 <= j < k
        ensures AllCompleted(cfg, me, sub, d, fetches[j], rounds[j], d', calm')
      {
        AllCompletedLater(cfg, me, sub, d, d, fetches[j], rounds[j], before, d', calm, calm');
      }
      AllCompletedLater(cfg, me, sub, d, before, fetches[k], hs, d', d', calm', calm');
    }
  }

  /** How often the handler of an event has taken effect. */
  ghost predicate AtMostOnce<S(!new), V(!new)>(cfg: Config<S, V>, d: World<V>, sub: SubId, e: Event) {
    Followed(cfg, d, sub, e.aggId) ==>
      multiset(d.applied)[Application(sub, e)] == if Processed(d, sub, e) then 1 else 0
  }

  lemma CountedOnce<S(!new), V(!new)>(cfg: Config<S, V>, d: World<V>, sub: SubId, e: Event)
    requires Inv(cfg, d) && e in d.events
    ensures AtMostOnce(cfg, d, sub, e)
  {
    if Followed(cfg, d, sub, e.aggId) {
      AppliedOnceIffProcessed(cfg, d, sub, e);
    }
  }

  /** Numbers of messages on the topic of the subscriber. */
  predicate Deliverable<S(!new), V(!new)>(cfg: Config<S, V>, d: World<V>, sub: SubId, fetched: seq<nat>)
    requires sub in cfg.subs
  {
    forall i :: i in fetched ==> i < |d.messages| && d.messages[i].aggType == cfg.subs[sub].topic
  }

  lemma StillDeliverable<S(!new), V(!new)>(
      cfg: Config<S, V>, d: World<V>, d': World<V>, sub: SubId, fetched: seq<nat>)
    requires sub in cfg.subs && Deliverable(cfg, d, sub, fetched) && Grows(cfg, d, d')
    ensures Deliverable(cfg, d', sub, fetched)
  {
  }

  /** Handling a message that is acknowledged already changes nothing, so
      handling and acknowledging is one redelivery in any case. */
  lemma DeliveredCalmly<S(!new), V(!new)>(cfg: Config<S, V>, d: World<V>, sub: SubId, i: nat)
    requires BaseInv(cfg, d) && sub in cfg.subs && i < |d.messages|
    requires d.messages[i].aggType == cfg.subs[sub].topic
    ensures var (d', ok) := HandleCalmly(cfg, d, sub, d.messages[i]);
      Redeliver(cfg, d, sub, i) == if ok then d'.(acked := d'.acked + {(i, sub)}) else d'
    ensures Redeliver(cfg, d, sub, i).locks == d.locks
  {
    if (i, sub) in d.acked {
      assert Processed(d, sub, d.messages[i]);
      assert d.acked + {(i, sub)} == d.acked;
    }
  }

  lemma {:induction false} PassKeepsLocks<S(!new), V(!new)>(
      cfg: Config<S, V>, d: World<V>, sub: SubId, order: seq<nat>)
    requires sub in cfg.subs
    ensures Pass(cfg, d, sub, order).locks == d.locks
    decreases |order|
  {
    if order != [] {
      PassKeepsLocks(cfg, Redeliver(cfg, d, sub, order[0]), sub, order[1..]);
    }
  }
}
