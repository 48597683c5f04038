/** The outbox relay (infra/postgres/outbox.go:25-101, outbox/relay.go): fetch and
    lock, publish one by one, mark, commit; any error rolls the whole batch back. */
module Relay {
  import opened Events
  import opened World
  import opened Relaying
  import opened Draining
  import opened Postgres

  lemma BatchIsSafe<S(!new), V(!new)>(cfg: Config<S, V>, me: Session, d: World<V>, batch: seq<Event>)
    requires Inv(cfg, d) && Holding(d, me, batch, |batch|)
    ensures CommitSafe(cfg, me, d, PublishedWrites(batch))
  {
    forall d' | Rely(cfg, me, d, d')
      ensures Guarantee(cfg, me, d', Committed(d', me, PublishedWrites(batch)))
    {
      HoldingStable(cfg, d, d', me, batch, |batch|);
      CommitBatchKeepsInv(cfg, d', me, batch);
    }
  }

  lemma HeldRows<S(!new), V(!new)>(cfg: Config<S, V>, d: World<V>, me: Session, batch: seq<Event>, done: nat)
    requires Inv(cfg, d) && Holding(d, me, batch, done)
    ensures forall e :: e in batch ==> OutboxRow(e, false) in d.outbox
  {
    forall e | e in batch
      ensures OutboxRow(e, false) in d.outbox
    {
      HeldUnpublished(cfg, d, me, batch, done, e);
    }
  }

  lemma StillHolding<S(!new), V(!new)>(
      cfg: Config<S, V>, me: Session, d: World<V>, d': World<V>, batch: seq<Event>, i: nat)
    requires i < |batch| && Inv(cfg, d) && Holding(d, me, batch, i) && Rely(cfg, me, d, d')
    ensures Holding(d', me, batch, i)
    ensures batch[i] in d'.messages ==> Holding(d', me, batch, i + 1)
  {
    HoldingStable(cfg, d, d', me, batch, i);
  }

  lemma SendReaches<V>(d: World<V>, e: Event)
    requires e.aggType != ""
    ensures e in Send(d, e).messages
  {
    assert Send(d, e).messages[|d.messages|] == e;
  }

  lemma {:induction false} SendOneMore<V>(d: World<V>, batch: seq<Event>, i: nat)
    requires i < |batch|
    ensures SendAll(d, batch[..i + 1]) == Send(SendAll(d, batch[..i]), batch[i])
    decreases i
  {
    if i > 0 {
      SendOneMore(Send(d, batch[0]), batch[1..], i - 1);
      assert batch[1..][..i] == batch[..i + 1][1..] && batch[1..][..i - 1] == batch[..i][1..];
    }
  }

  lemma SentUpTo<V>(d: World<V>, batch: seq<Event>, i: nat, sent: nat)
    requires i < |batch| && i <= sent <= i + 1
    ensures SendAll(d, batch[..sent]) ==
      if sent == i then SendAll(d, batch[..i]) else Send(SendAll(d, batch[..i]), batch[i])
  {
    SendOneMore(d, batch, i);
  }

  /** Undisturbed polls have led from d to d'. */
  ghost predicate Polled<V>(
      b: nat, me: Session, d: World<V>, ds: seq<World<V>>, batches: seq<seq<Event>>, d': World<V>, k: nat) {
    && |batches| == k && Polls(b, me, ds, batches) && ds[0] == d && ds[k] == d' && d'.locks == map[]
  }

  lemma PollsOneMore<V>(
      b: nat, me: Session, ds: seq<World<V>>, batches: seq<seq<Event>>, batch: seq<Event>, d': World<V>)
    requires Polls(b, me, ds, batches)
    requires IsBatch(ds[|batches|], b, batch) && d' == Poll(ds[|batches|], me, batch)
    ensures Polls(b, me, ds + [d'], batches + [batch])
  {
  }

  lemma OnePollMore<S(!new), V(!new)>(
      cfg: Config<S, V>, me: Session, d: World<V>, ds: seq<World<V>>, batches: seq<seq<Event>>, before: World<V>,
      batch: seq<Event>, d': World<V>, k: nat, calm: bool)
    requires Inv(cfg, before)
    requires calm ==> Polled(cfg.batchSize, me, d, ds, batches, before, k)
    requires calm ==> IsBatch(before, cfg.batchSize, batch) && d' == Poll(before, me, batch)
    ensures calm ==> Polled(cfg.batchSize, me, d, ds + [d'], batches + [batch], d', k + 1)
  {
    if calm {
      PollPending(before, me, cfg.batchSize, batch);
      PollsOneMore(cfg.batchSize, me, ds, batches, batch, d');
    }
  }

  lemma PolledDrains<V(!new)>(
      b: nat, me: Session, d: World<V>, ds: seq<World<V>>, batches: seq<seq<Event>>, d': World<V>, k: nat)
    requires Polled(b, me, d, ds, batches, d', k) && d.locks == map[] && UniqueIds(OutboxEvents(d.outbox))
    ensures Emptied(b, d, d', Flatten(batches), k)
  {
    Drain(b, me, ds, batches);
  }

  /** Exactly max(0, m - k*b) of m pending rows are left, and `published` are the others,
      each once, by timestamp, and in this order with the broker. */
  ghost predicate Emptied<V>(b: nat, d: World<V>, d': World<V>, published: seq<Event>, k: nat) {
    && |Pending(d'.outbox)| == Minus(|Pending(d.outbox)|, k * b)
    && Drained(Pending(d.outbox), Pending(d'.outbox), published)
    && d'.messages == d.messages + WithTopic(published)
  }

  class Relay<S(!new), V(!new)> {
    const db: Backend<S, V>
    const me: Session

    constructor (db: Backend<S, V>, me: Session)
      ensures this.db == db && this.me == me
    {
      this.db, this.me := db, me;
    }

    /** One event: without a topic it is skipped, and a publication may have been taken
        even if it is reported as failed. */
    method PublishOne(events: seq<Event>, i: nat) returns (err: Error, ghost sent: nat)
      requires db.Valid() && Holding(db.world, me, events, i) && i < |events|
      modifies db
      ensures db.Valid() && Rely(db.cfg, me, old(db.world), db.world)
      ensures i <= sent <= i + 1 && Holding(db.world, me, events, sent) && (err.Nil? ==> sent == i + 1)
      ensures err.Nil? || err.Publishing?
      ensures db.faults == if err.Nil? then old(db.faults) else old(db.faults) + 1
      ensures db.alone ==> db.world == if sent == i then old(db.world) else Send(old(db.world), events[i])
    {
      ghost var d := db.world;
      assert events[i] in events;
      RelyReflexive(db.cfg, me, d);
      if events[i].aggType == "" {
        return Nil, i + 1;
      }
      ghost var at, taken;
      err, at, taken := db.Publish(me, events[i]);
      SendReaches(at, events[i]);
      StillHolding(db.cfg, me, d, db.world, events, i);
      sent := if taken then i + 1 else i;
    }

    /** The processor: the first failing publication ends it, and so exactly the first
        `sent` events have been sent. */
    method PublishAll(events: seq<Event>) returns (err: Error, ghost sent: nat)
      requires db.Valid() && Holding(db.world, me, events, 0)
      modifies db
      ensures db.Valid() && Rely(db.cfg, me, old(db.world), db.world)
      ensures sent <= |events| && Holding(db.world, me, events, sent) && (err.Nil? ==> sent == |events|)
      ensures err.Nil? || err.Publishing?
      ensures db.faults == if err.Nil? then old(db.faults) else old(db.faults) + 1
      ensures db.alone ==> db.world == SendAll(old(db.world), events[..sent])
    {
      ghost var d := db.world;
      RelyReflexive(db.cfg, me, d);
      for i := 0 to |events|
        invariant db.Valid() && Rely(db.cfg, me, d, db.world)
        invariant Holding(db.world, me, events, i) && db.faults == old(db.faults)
        invariant db.alone ==> db.world == SendAll(d, events[..i])
      {
        ghost var before := db.world;
        err, sent := PublishOne(events, i);
        SentUpTo(d, events, i, sent);
        RelyTransitive(db.cfg, me, d, before, db.world);
        if !err.Nil? {
          return err, sent;
        }
      }
      assert events[..|events|] == events;
      return Nil, |events|;
    }

    /** markAsPublishedInTx: its consistency error is never returned. */
    method MarkAsPublished(tx: Tx<V>, events: seq<Event>) returns (err: Error)
      requires db.Valid() && (tx as object) != db && tx.session == me
      requires Holding(db.world, me, events, |events|)
      modifies db, tx
      ensures db.Valid() && Rely(db.cfg, me, old(db.world), db.world)
      ensures err.Nil? || err.Storage?
      ensures err.Nil? ==>
        !tx.poisoned && tx.writes == old(tx.writes).(published := old(tx.writes).published + IdsOf(events))
      ensures db.alone ==> db.world == old(db.world)
      ensures !old(tx.poisoned) ==> db.faults == if err.Nil? then old(db.faults) else old(db.faults) + 1
    {
      var ids: seq<EventId> := [];
      for i := 0 to |events|
        invariant |ids| == i && forall j :: 0 <= j < i ==> ids[j] == events[j].id
        invariant tx.writes == old(tx.writes) && tx.poisoned == old(tx.poisoned)
        invariant db.world == old(db.world) && db.faults == old(db.faults)
      {
        ids := ids + [events[i].id];
      }
      assert SetOf(ids) == IdsOf(events);
      ghost var before := db.world;
      var affected := db.UpdatePublished(tx, ids);
      if affected.Err? {
        return affected.error;
      }
      HoldingStable(db.cfg, before, db.world, me, events, |events|);
      HeldRowsAffected(db.cfg, db.world, me, events, |events|);
      err := if affected.value != |ids| then Inconsistent else Nil;
    }

    /** ProcessOutboxBatch with the relay's processor.  Nil means that the whole
        batch is marked and, as far as it has topics, with the broker; an error means
        that something has failed.  Alone, nil is one `Poll`, and after an error a part
        of the batch has been sent and nothing is marked, unless only the report of the
        commit went wrong. */
    method ProcessBatch() returns (err: Error, ghost batch: seq<Event>, ghost sent: nat)
      requires db.Valid()
      modifies db
      ensures db.Valid() && Grows(db.cfg, old(db.world), db.world)
      ensures !err.Inconsistent? && sent <= |batch| <= db.cfg.batchSize
      ensures err.Nil? ==> forall e :: e in batch ==>
        OutboxRow(e, true) in db.world.outbox && (e.aggType != "" ==> e in db.world.messages)
      ensures err.Publishing? ==> forall e :: e in batch ==> OutboxRow(e, false) in db.world.outbox
      ensures NoLocks(old(db.world), me) ==> NoLocks(db.world, me)
      ensures db.faults == if err.Nil? then old(db.faults) else old(db.faults) + 1
      ensures db.alone && err.Nil? ==>
        IsBatch(old(db.world), db.cfg.batchSize, batch) && db.world == Poll(old(db.world), me, batch)
      ensures db.alone && !err.Nil? ==> FailedPoll(db.cfg.batchSize, me, old(db.world), batch, sent, db.world)
    {
      ghost var d := db.world;
      batch, sent := [], 0;
      GrowsReflexive(db.cfg, d);
      var tx, failed := db.Begin(me);
      if tx == null {
        return failed, [], 0;
      }
      ghost var before;
      var events;
      events, before := db.SelectForUpdate(tx);
      ghost var locked := db.world;
      if events.Err? {
        db.Rollback(tx);
        GrowsTransitive(db.cfg, d, locked, db.world);
        return events.error, [], 0;
      }
      batch := events.value;
      if |events.value| == 0 {
        db.Rollback(tx);
        GrowsTransitive(db.cfg, d, locked, db.world);
        PollNothing(d, me);
        return Nil, batch, 0;
      }
      err, sent := PublishAll(events.value);
      ghost var published := db.world;
      GrowsTransitive(db.cfg, d, locked, published);
      if !err.Nil? {
        HeldRows(db.cfg, published, me, batch, sent);
        db.Rollback(tx);
        GrowsTransitive(db.cfg, d, published, db.world);
        return err, batch, sent;
      }
      assert batch[..|batch|] == batch;
      err := MarkAndCommit(tx, events.value);
      GrowsTransitive(db.cfg, d, published, db.world);
    }

    /** Steps 3 and 4 of ProcessOutboxBatch. */
    method MarkAndCommit(tx: Tx<V>, events: seq<Event>) returns (err: Error)
      requires db.Valid() && (tx as object) != db && tx.session == me && tx.writes == NoWrites() && !tx.poisoned
      requires Holding(db.world, me, events, |events|)
      modifies db, tx
      ensures db.Valid() && Grows(db.cfg, old(db.world), db.world)
      ensures err.Nil? || err.Storage?
      ensures err.Nil? ==> forall e :: e in events ==>
        OutboxRow(e, true) in db.world.outbox && (e.aggType != "" ==> e in db.world.messages)
      ensures NoLocks(db.world, me)
      ensures db.faults == if err.Nil? then old(db.faults) else old(db.faults) + 1
      ensures db.alone ==>
        db.world == CommitBatch(old(db.world), me, events) || (!err.Nil? && db.world == Unlock(old(db.world), me))
    {
      ghost var d := db.world;
      err := MarkAsPublished(tx, events);
      ghost var marked := db.world;
      if !err.Nil? {
        db.Rollback(tx);
        GrowsTransitive(db.cfg, d, marked, db.world);
        return err;
      }
      HoldingStable(db.cfg, d, marked, me, events, |events|);
      BatchIsSafe(db.cfg, me, marked, events);
      PublishedAdmitted(db.cfg, marked, events);
      assert {} + IdsOf(events) == IdsOf(events);
      ghost var effect, before;
      err, effect, before := db.Commit(tx);
      GrowsTransitive(db.cfg, d, marked, db.world);
      HoldingStable(db.cfg, marked, before, me, events, |events|);
      PublishedAdmitted(db.cfg, before, events);
      if effect {
        BatchMarked(db.cfg, before, me, events);
      }
    }

    /** The polling loop; errors are only logged, and the next poll follows.  `failed`
        counts the polls that returned one, each of them with a fault of its own: alone,
        at most max(0, m - k*b) of m pending rows are left after k polls without error.
        If nothing fails it is exactly that many, and the publications are the drained
        rows, each once, by timestamp. */
    method Run(polls: nat) returns (ghost published: seq<Event>, ghost failed: nat)
      requires db.Valid()
      modifies db
      ensures db.Valid() && Grows(db.cfg, old(db.world), db.world)
      ensures failed <= polls && db.faults == old(db.faults) + failed
      ensures db.alone && old(db.world).locks == map[] ==>
        Behind(db.cfg.batchSize, old(db.world), db.world, polls - failed)
      ensures db.Calm(old(db.faults)) && old(db.world).locks == map[] ==>
        Emptied(db.cfg.batchSize, old(db.world), db.world, published, polls)
    {
      ghost var d, b := db.world, db.cfg.batchSize;
      ghost var ds, batches: seq<seq<Event>> := [d], [];
      ghost var done := 0;
      GrowsReflexive(db.cfg, d);
      assert d.locks == map[] ==> Polled(b, me, d, ds, batches, d, 0);
      for i := 0 to polls
        invariant db.Valid() && Grows(db.cfg, d, db.world)
        invariant done <= i && db.faults == old(db.faults) + i - done
        invariant db.alone && d.locks == map[] ==> Behind(b, d, db.world, done)
        invariant db.Calm(old(db.faults)) && d.locks == map[] ==> Polled(b, me, d, ds, batches, db.world, i)
      {
        ghost var before := db.world;
        ghost var batch, sent;
        var err;
        err, batch, sent := ProcessBatch();
        GrowsTransitive(db.cfg, d, before, db.world);
        PollLeaves(db.cfg, me, d, before, batch, sent, db.world, err.Nil?, done, db.alone && d.locks == map[]);
        OnePollMore(db.cfg, me, d, ds, batches, before, batch, db.world, i,
          db.Calm(old(db.faults)) && d.locks == map[]);
        done := if err.Nil? then done + 1 else done;
        ds, batches := ds + [db.world], batches + [batch];
      }
      published, failed := Flatten(batches), polls - done;
      if db.Calm(old(db.faults)) && d.locks == map[] {
        PolledDrains(b, me, d, ds, batches, db.world, polls);
      }
    }
  }

  /** What a failed poll leaves when nobody interferes: locks are given back, the first
      `sent` events are with the broker, and nothing is marked, unless everything was
      committed and reported as failed. */
  ghost predicate FailedPoll<V>(b: nat, me: Session, d: World<V>, batch: seq<Event>, sent: nat, d': World<V>) {
    sent <= |batch| &&
    (|| d' == d
     || d' == Unlock(d, me)
     || (IsBatch(d, b, batch) &&
          (d' == Poll(d, me, batch) || d' == Unlock(SendAll(Lock(d, me, batch), batch[..sent]), me))))
  }

  /** What k batches of b leave of m rows. */
  function LeftAfter(m: nat, b: nat, k: nat): nat {
    if k == 0 then m else Minus(LeftAfter(m, b, k - 1), b)
  }

  lemma {:induction false} LeftIsMinus(m: nat, b: nat, k: nat)
    ensures LeftAfter(m, b, k) == Minus(m, k * b)
  {
    if k > 0 {
      LeftIsMinus(m, b, k - 1);
      assert k * b == (k - 1) * b + b;
    }
  }

  /** No locks are held, and at most as many rows are pending as k batches leave. */
  ghost predicate Behind<V>(b: nat, d: World<V>, d': World<V>, k: nat) {
    d'.locks == map[] && |Pending(d'.outbox)| <= LeftAfter(|Pending(d.outbox)|, b, k)
  }

  /** A poll without error takes a batch from the pending rows, a failed one adds none. */
  lemma PollLeaves<S(!new), V(!new)>(
      cfg: Config<S, V>, me: Session, d: World<V>, before: World<V>, batch: seq<Event>, sent: nat, d': World<V>,
      nil: bool, k: nat, alone: bool)
    requires Inv(cfg, before)
    requires alone ==> Behind(cfg.batchSize, d, before, k)
    requires alone && nil ==> IsBatch(before, cfg.batchSize, batch) && d' == Poll(before, me, batch)
    requires alone && !nil ==> FailedPoll(cfg.batchSize, me, before, batch, sent, d')
    ensures alone ==> Behind(cfg.batchSize, d, d', if nil then k + 1 else k)
  {
    if alone && nil {
      PollTakes(cfg.batchSize, me, before, batch);
    } else if alone {
      FailedPollLeaves(cfg.batchSize, me, before, batch, sent, d');
    }
  }

  lemma PollTakes<V>(b: nat, me: Session, d: World<V>, batch: seq<Event>)
    requires d.locks == map[] && UniqueIds(OutboxEvents(d.outbox)) && IsBatch(d, b, batch)
    ensures Poll(d, me, batch).locks == map[]
    ensures |Pending(Poll(d, me, batch).outbox)| == Minus(|Pending(d.outbox)|, b)
  {
    PollPending(d, me, b, batch);
    PollCount(d, me, b, batch);
  }

  lemma FailedPollLeaves<V>(b: nat, me: Session, d: World<V>, batch: seq<Event>, sent: nat, d': World<V>)
    requires d.locks == map[] && UniqueIds(OutboxEvents(d.outbox)) && FailedPoll(b, me, d, batch, sent, d')
    ensures d'.locks == map[] && |Pending(d'.outbox)| <= |Pending(d.outbox)|
  {
    if IsBatch(d, b, batch) {
      PollTakes(b, me, d, batch);
    }
    SendAllAppends(Lock(d, me, batch), batch[..sent]);
  }

  lemma BehindIsMinus<V>(b: nat, d: World<V>, d': World<V>, k: nat)
    ensures Behind(b, d, d', k) <==> d'.locks == map[] && |Pending(d'.outbox)| <= Minus(|Pending(d.outbox)|, k * b)
  {
    LeftIsMinus(|Pending(d.outbox)|, b, k);
  }
}
