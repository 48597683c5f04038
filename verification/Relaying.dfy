/** The outbox relay on the shared state (infra/postgres/outbox.go, outbox/relay.go):
    locking a batch, publishing it, marking it, and draining the outbox. */
module Relaying {
  import opened Events
  import opened World

  function IdsOf(batch: seq<Event>): set<EventId> {
    set e | e in batch :: e.id
  }

  /** The events of unpublished outbox rows. */
  function Pending(rows: seq<OutboxRow>): set<Event> {
    set row | row in rows && !row.published :: row.evt
  }

  /** Unpublished and not skipped by SKIP LOCKED. */
  ghost predicate Free<V>(d: World<V>, e: Event) {
    e in Pending(d.outbox) && e.id !in d.locks
  }

  /** A result of SELECT ... WHERE published = FALSE ORDER BY ts LIMIT b FOR UPDATE
      SKIP LOCKED; ties in ts may be broken either way. */
  ghost predicate IsBatch<V>(d: World<V>, b: nat, batch: seq<Event>) {
    && |batch| <= b
    && UniqueIds(batch)
    && SortedByTime(batch)
    && (forall e :: e in batch ==> Free(d, e))
    && (forall e :: Free(d, e) && e !in batch ==> |batch| == b && forall x :: x in batch ==> x.ts <= e.ts)
  }

  ghost predicate SortedByTime(es: seq<Event>) {
    forall i, j :: 0 <= i < j < |es| ==> es[i].ts <= es[j].ts
  }

  function InsertByTime(es: seq<Event>, e: Event): (r: seq<Event>)
    requires SortedByTime(es)
    ensures SortedByTime(r)
    ensures forall x :: x in r <==> x in es || x == e
  {
    if es == [] then [e]
    else
      var init, last := es[..|es| - 1], es[|es| - 1];
      assert es == init + [last];
      if last.ts <= e.ts then es + [e]
      else
        assert SortedByTime(init);
        assert last in es;
        assert forall x :: x in init ==> x.ts <= last.ts by {
          LastIsNewest(es);
        }
        InsertByTime(init, e) + [last]
  }

  lemma LastIsNewest(es: seq<Event>)
    requires SortedByTime(es) && es != []
    ensures forall x :: x in es ==> x.ts <= es[|es| - 1].ts
  {
  }

  lemma {:induction false} InsertKeepsUnique(es: seq<Event>, e: Event)
    requires SortedByTime(es) && UniqueIds(es) && forall x :: x in es ==> x.id != e.id
    ensures UniqueIds(InsertByTime(es, e))
    decreases |es|
  {
    if es != [] {
      var init, last := es[..|es| - 1], es[|es| - 1];
      assert es == init + [last];
      assert last in es;
      if last.ts > e.ts {
        InsertKeepsUnique(init, e);
        UniqueAppend(InsertByTime(init, e), last);
      } else {
        UniqueAppend(es, e);
      }
    }
  }

  function SetOf(ids: seq<EventId>): set<EventId> {
    set id | id in ids
  }

  /** The rows that a relay may lock, oldest first. */
  function FreeByTime(rows: seq<OutboxRow>, locked: set<EventId>): (es: seq<Event>)
    ensures SortedByTime(es)
    ensures forall e :: e in es <==> e in Pending(rows) && e.id !in locked
    ensures UniqueIds(OutboxEvents(rows)) ==> UniqueIds(es)
  {
    if rows == [] then []
    else
      var init, last := rows[..|rows| - 1], rows[|rows| - 1];
      var before := FreeByTime(init, locked);
      assert rows == init + [last];
      assert forall e :: e in Pending(rows) <==> e in Pending(init) || (e == last.evt && !last.published);
      assert UniqueIds(OutboxEvents(rows)) ==>
        UniqueIds(OutboxEvents(init)) && forall x :: x in before ==> x.id != last.evt.id by {
        LastIsFresh(init, last);
      }
      assert UniqueIds(before) && (forall x :: x in before ==> x.id != last.evt.id) ==>
        UniqueIds(InsertByTime(before, last.evt)) by {
        if UniqueIds(before) && forall x :: x in before ==> x.id != last.evt.id {
          InsertKeepsUnique(before, last.evt);
        }
      }
      if last.published || last.evt.id in locked then before else InsertByTime(before, last.evt)
  }

  lemma LastIsFresh(init: seq<OutboxRow>, last: OutboxRow)
    ensures UniqueIds(OutboxEvents(init + [last])) ==>
      UniqueIds(OutboxEvents(init)) && forall x :: x in Pending(init) ==> x.id != last.evt.id
  {
    var es := OutboxEvents(init + [last]);
    assert forall i :: 0 <= i < |init| ==> OutboxEvents(init)[i] == es[i];
    if UniqueIds(es) {
      forall x | x in Pending(init)
        ensures x.id != last.evt.id
      {
        var row :| row in init && !row.published && row.evt == x;
        var i :| 0 <= i < |init| && init[i] == row;
        assert es[i] == x && es[|init|] == last.evt;
      }
    }
  }

  /** One result of the query; contracts only use that it is a batch. */
  function Oldest<V>(d: World<V>, b: nat): (batch: seq<Event>)
    ensures UniqueIds(OutboxEvents(d.outbox)) ==> IsBatch(d, b, batch)
  {
    var free := FreeByTime(d.outbox, d.locks.Keys);
    if |free| <= b then free
    else
      assert forall e :: e in free && e !in free[..b] ==> e in free[b..] by {
        assert free == free[..b] + free[b..];
      }
      free[..b]
  }

  function Lock<V>(d: World<V>, me: Session, batch: seq<Event>): World<V> {
    d.(locks := map id | id in d.locks.Keys + IdsOf(batch) :: if id in IdsOf(batch) then me else d.locks[id])
  }

  /** Publish: an event without a topic is skipped (outbox/relay.go:87-97). */
  function Send<V>(d: World<V>, e: Event): World<V> {
    if e.aggType == "" then d else d.(messages := d.messages + [e])
  }

  function SendAll<V>(d: World<V>, batch: seq<Event>): World<V>
    decreases |batch|
  {
    if batch == [] then d else SendAll(Send(d, batch[0]), batch[1..])
  }

  function PublishedWrites<V>(batch: seq<Event>): Writes<V> {
    NoWrites().(published := IdsOf(batch))
  }

  function CommitBatch<V>(d: World<V>, me: Session, batch: seq<Event>): World<V> {
    Unlock(Merge(d, PublishedWrites(batch)), me)
  }

  /** A whole undisturbed poll: lock, publish, mark, commit. */
  function Poll<V>(d: World<V>, me: Session, batch: seq<Event>): World<V> {
    CommitBatch(SendAll(Lock(d, me, batch), batch), me, batch)
  }

  /** `me` holds the locks of the batch and has sent its first `done` events. */
  ghost predicate Holding<V>(d: World<V>, me: Session, batch: seq<Event>, done: nat) {
    && UniqueIds(batch)
    && done <= |batch|
    && (forall e :: e in batch ==> e in OutboxEvents(d.outbox) && e.id in d.locks && d.locks[e.id] == me)
    && (forall j :: 0 <= j < done && batch[j].aggType != "" ==> batch[j] in d.messages)
  }

  lemma HoldingStable<S(!new), V(!new)>(
      cfg: Config<S, V>, d: World<V>, d': World<V>, me: Session, batch: seq<Event>, done: nat)
    requires Inv(cfg, d) && Holding(d, me, batch, done) && Rely(cfg, me, d, d')
    ensures Holding(d', me, batch, done)
  {
    forall e | e in batch
      ensures e in OutboxEvents(d'.outbox) && e.id in d'.locks && d'.locks[e.id] == me
    {
      assert e.id in d.locks && d.locks[e.id] == me;
      assert e in d.events;
    }
  }

  /** Row locks belong to one session: two batches never share a row. */
  lemma BatchesDisjoint<V>(
      d: World<V>, r: Session, batch: seq<Event>, r': Session, batch': seq<Event>, done: nat, done': nat)
    requires r != r' && Holding(d, r, batch, done) && Holding(d, r', batch', done')
    ensures IdsOf(batch) !! IdsOf(batch')
  {
    forall id | id in IdsOf(batch)
      ensures id in d.locks && d.locks[id] == r
    {
    }
    forall id | id in IdsOf(batch')
      ensures id in d.locks && d.locks[id] == r'
    {
    }
  }

  /** Session `me` holds no row locks. */
  ghost predicate NoLocks<V>(d: World<V>, me: Session) {
    forall id :: id in d.locks ==> d.locks[id] != me
  }

  lemma UnlockNothing<V>(d: World<V>, me: Session)
    requires NoLocks(d, me)
    ensures Unlock(d, me) == d
  {
    assert Unlock(d, me).locks == d.locks;
  }

  /** A row of a held batch is not published. */
  lemma HeldUnpublished<S(!new), V(!new)>(
      cfg: Config<S, V>, d: World<V>, r: Session, batch: seq<Event>, done: nat, e: Event)
    requires Inv(cfg, d) && Holding(d, r, batch, done) && e in batch
    ensures e in d.events && OutboxRow(e, false) in d.outbox && OutboxRow(e, true) !in d.outbox
  {
    assert e.id in d.locks;
    var i :| 0 <= i < |d.outbox| && d.outbox[i].evt.id == e.id && !d.outbox[i].published;
    assert d.events[i] == d.outbox[i].evt;
    assert d.outbox[i].evt == e by {
      SameId(d.events, d.outbox[i].evt, e);
    }
    assert d.outbox[i] == OutboxRow(e, false);
    forall j | 0 <= j < |d.outbox| && d.outbox[j].evt == e
      ensures !d.outbox[j].published
    {
      assert d.events[j] == e;
      assert i == j;
    }
  }

  // ----- Every relay action keeps the invariant -----

  lemma LockKeepsInv<S(!new), V(!new)>(cfg: Config<S, V>, d: World<V>, me: Session, batch: seq<Event>)
    requires Inv(cfg, d) && IsBatch(d, cfg.batchSize, batch)
    ensures var d' := Lock(d, me, batch);
      Guarantee(cfg, me, d, d') && Holding(d', me, batch, 0)
  {
    var d' := Lock(d, me, batch);
    SameTables(cfg, d, d');
    forall id | id in d'.locks
      ensures exists i :: 0 <= i < |d'.outbox| && d'.outbox[i].evt.id == id && !d'.outbox[i].published
    {
      if id in IdsOf(batch) {
        var e :| e in batch && e.id == id;
        assert Free(d, e);
        var row :| row in d.outbox && !row.published && row.evt == e;
        var i :| 0 <= i < |d.outbox| && d.outbox[i] == row;
        assert d'.outbox[i].evt.id == id;
      } else {
        var i :| 0 <= i < |d.outbox| && d.outbox[i].evt.id == id && !d.outbox[i].published;
        assert d'.outbox[i].evt.id == id;
      }
    }
    forall e | e in batch
      ensures e in OutboxEvents(d'.outbox) && e.id in d'.locks && d'.locks[e.id] == me
    {
      assert Free(d, e) && e.id in IdsOf(batch);
      PendingAreOutboxEvents(d.outbox, e);
    }
    forall other | other != me
      ensures SameLocks(other, d, d')
    {
      forall id
        ensures (id in d.locks && d.locks[id] == other) <==> (id in d'.locks && d'.locks[id] == other)
      {
        if id in IdsOf(batch) {
          var e :| e in batch && e.id == id;
          assert Free(d, e);
        }
      }
    }
  }

  lemma PendingAreOutboxEvents(rows: seq<OutboxRow>, e: Event)
    requires e in Pending(rows)
    ensures e in OutboxEvents(rows)
  {
    var row :| row in rows && !row.published && row.evt == e;
    var i :| 0 <= i < |rows| && rows[i] == row;
    assert OutboxEvents(rows)[i] == e;
  }

  lemma UnlockKeepsInv<S(!new), V(!new)>(cfg: Config<S, V>, d: World<V>, me: Session)
    requires Inv(cfg, d)
    ensures Guarantee(cfg, me, d, Unlock(d, me))
  {
    SameTables(cfg, d, Unlock(d, me));
  }

  /** States that differ only in row locks. */
  lemma SameTables<S(!new), V(!new)>(cfg: Config<S, V>, d: World<V>, d': World<V>)
    requires Inv(cfg, d) && d' == d.(locks := d'.locks)
    ensures LocksUnpublished(d'.outbox, d'.locks) ==> Inv(cfg, d')
    ensures Grows(cfg, d, d')
  {
    Framed(cfg, d, d');
  }

  /** The relay leaves alone what read side and write side look at. */
  lemma Framed<S(!new), V(!new)>(cfg: Config<S, V>, d: World<V>, d': World<V>)
    requires Inv(cfg, d)
    requires d' == d.(outbox := d'.outbox, locks := d'.locks, messages := d'.messages)
    ensures ReadInv(cfg, d') && ViewsAdvance(cfg, d, d')
    ensures Replayable(cfg) ==> WriteInv(cfg, d')
  {
    SameReadSide(cfg, d, d');
    if Replayable(cfg) {
      SameWriteSide(cfg, d, d');
    }
  }

  lemma SendKeepsInv<S(!new), V(!new)>(cfg: Config<S, V>, d: World<V>, me: Session, e: Event)
    requires Inv(cfg, d) && e in d.events
    ensures Inv(cfg, Send(d, e)) && Grows(cfg, d, Send(d, e)) && Send(d, e).locks == d.locks
  {
    var d' := Send(d, e);
    Framed(cfg, d, d');
    forall p | p in d'.acked
      ensures p.0 < |d'.messages| && (d'.messages[p.0].id, p.1) in d'.processed
    {
      assert d'.messages[p.0] == d.messages[p.0];
    }
  }

  lemma SendNextKeepsInv<S(!new), V(!new)>(cfg: Config<S, V>, d: World<V>, me: Session, batch: seq<Event>, done: nat)
    requires Inv(cfg, d) && Holding(d, me, batch, done) && done < |batch|
    ensures var d' := Send(d, batch[done]);
      Guarantee(cfg, me, d, d') && d'.locks == d.locks && Holding(d', me, batch, done + 1)
  {
    assert batch[done] in batch;
    assert batch[done] in d.events;
    SendKeepsInv(cfg, d, me, batch[done]);
    SentNext(d, me, batch, done);
  }

  lemma SentNext<V>(d: World<V>, me: Session, batch: seq<Event>, done: nat)
    requires Holding(d, me, batch, done) && done < |batch|
    ensures Holding(Send(d, batch[done]), me, batch, done + 1)
  {
  }

  /** What the commit of a batch changes: the flags of its rows, and the locks. */
  lemma CommitBatchEffect<S(!new), V(!new)>(cfg: Config<S, V>, d: World<V>, me: Session, batch: seq<Event>)
    ensures var d' := CommitBatch(d, me, batch);
      && d' == d.(outbox := d'.outbox, locks := d'.locks)
      && |d'.outbox| == |d.outbox|
      && forall i :: 0 <= i < |d.outbox| ==>
        d'.outbox[i] == OutboxRow(d.outbox[i].evt, d.outbox[i].published || d.outbox[i].evt.id in IdsOf(batch))
  {
    assert d.events + [] == d.events;
    assert d.outbox + NewRows([]) == d.outbox;
  }

  lemma SentIsDelivered<S(!new), V(!new)>(cfg: Config<S, V>, d: World<V>, me: Session, batch: seq<Event>, e: Event)
    requires Inv(cfg, d) && Holding(d, me, batch, |batch|)
    requires e in d.events && e.id in IdsOf(batch) && e.aggType != ""
    ensures e in d.messages
  {
    var x :| x in batch && x.id == e.id;
    assert x in OutboxEvents(d.outbox);
    SameId(d.events, x, e);
    var j :| 0 <= j < |batch| && batch[j] == x;
  }

  /** Marking a batch that was sent completely, and releasing its locks. */
  lemma CommitBatchKeepsInv<S(!new), V(!new)>(cfg: Config<S, V>, d: World<V>, me: Session, batch: seq<Event>)
    requires Inv(cfg, d) && Holding(d, me, batch, |batch|)
    ensures Guarantee(cfg, me, d, CommitBatch(d, me, batch))
  {
    var d' := CommitBatch(d, me, batch);
    CommitBatchEffect(cfg, d, me, batch);
    assert OutboxEvents(d'.outbox) == OutboxEvents(d.outbox);
    Framed(cfg, d, d');
    forall i | 0 <= i < |d'.outbox| && d'.outbox[i].published && d'.outbox[i].evt.aggType != ""
      ensures d'.outbox[i].evt in d'.messages
    {
      if !d.outbox[i].published {
        assert d.events[i] == d.outbox[i].evt;
        SentIsDelivered(cfg, d, me, batch, d.outbox[i].evt);
      }
    }
    forall id | id in d'.locks
      ensures exists i :: 0 <= i < |d'.outbox| && d'.outbox[i].evt.id == id && !d'.outbox[i].published
    {
      var i :| 0 <= i < |d.outbox| && d.outbox[i].evt.id == id && !d.outbox[i].published;
      assert id !in IdsOf(batch);
      assert d'.outbox[i].evt.id == id;
    }
  }

  lemma PublishedAdmitted<S(!new), V(!new)>(cfg: Config<S, V>, d: World<V>, batch: seq<Event>)
    requires Inv(cfg, d)
    ensures Admits(d, PublishedWrites(batch))
  {
    assert d.events + [] == d.events;
    assert OutboxEvents(d.outbox) + [] == OutboxEvents(d.outbox);
  }

  // ----- The rows-affected check -----

  /** How many rows UPDATE ... WHERE event_id = ANY(ids) touches. */
  function RowsAffected(rows: seq<OutboxRow>, ids: set<EventId>): nat {
    if rows == [] then 0
    else RowsAffected(rows[..|rows| - 1], ids) + if rows[|rows| - 1].evt.id in ids then 1 else 0
  }

  lemma {:induction false} RowsAffectedCount(rows: seq<OutboxRow>, ids: set<EventId>)
    requires UniqueIds(OutboxEvents(rows))
    requires forall id :: id in ids ==> exists i :: 0 <= i < |rows| && rows[i].evt.id == id
    ensures RowsAffected(rows, ids) == |ids|
  {
    if rows != [] {
      var init, last := rows[..|rows| - 1], rows[|rows| - 1];
      assert OutboxEvents(init) == OutboxEvents(rows)[..|init|];
      var rest := ids - {last.evt.id};
      forall id | id in rest
        ensures exists i :: 0 <= i < |init| && init[i].evt.id == id
      {
        var i :| 0 <= i < |rows| && rows[i].evt.id == id;
        assert init[i] == rows[i];
      }
      RowsAffectedCount(init, rest);
      AffectedSame(init, ids, rest, last.evt.id);
      if last.evt.id in ids {
        assert ids == rest + {last.evt.id};
      } else {
        assert ids == rest;
      }
    } else {
      assert ids == {};
    }
  }

  lemma {:induction false} AffectedSame(rows: seq<OutboxRow>, ids: set<EventId>, rest: set<EventId>, id: EventId)
    requires rest == ids - {id} && forall i :: 0 <= i < |rows| ==> rows[i].evt.id != id
    ensures RowsAffected(rows, ids) == RowsAffected(rows, rest)
  {
    if rows != [] {
      AffectedSame(rows[..|rows| - 1], ids, rest, id);
    }
  }

  lemma {:induction false} DistinctIds(batch: seq<Event>)
    requires UniqueIds(batch)
    ensures |IdsOf(batch)| == |batch|
  {
    if batch != [] {
      var init, last := batch[..|batch| - 1], batch[|batch| - 1];
      DistinctIds(init);
      assert batch == init + [last];
      assert IdsOf(batch) == IdsOf(init) + {last.id};
      assert last.id !in IdsOf(init);
    }
  }

  function Elements(batch: seq<Event>): set<Event> {
    set e | e in batch
  }

  lemma {:induction false} DistinctElements(batch: seq<Event>)
    requires UniqueIds(batch)
    ensures |Elements(batch)| == |batch|
  {
    if batch != [] {
      var init, last := batch[..|batch| - 1], batch[|batch| - 1];
      DistinctElements(init);
      assert batch == init + [last];
      assert Elements(batch) == Elements(init) + {last};
      assert last !in Elements(init);
    }
  }

  /** The consistency error of markAsPublishedInTx is unreachable. */
  lemma HeldRowsAffected<S(!new), V(!new)>(cfg: Config<S, V>, d: World<V>, me: Session, batch: seq<Event>, done: nat)
    requires Inv(cfg, d) && Holding(d, me, batch, done)
    ensures RowsAffected(d.outbox, IdsOf(batch)) == |batch|
  {
    forall id | id in IdsOf(batch)
      ensures exists i :: 0 <= i < |d.outbox| && d.outbox[i].evt.id == id
    {
      var e :| e in batch && e.id == id;
      var i :| 0 <= i < |OutboxEvents(d.outbox)| && OutboxEvents(d.outbox)[i] == e;
      assert d.outbox[i].evt.id == id;
    }
    RowsAffectedCount(d.outbox, IdsOf(batch));
    DistinctIds(batch);
  }

  // ----- The commit of a batch is safe, and complete -----

  /** An empty poll is a lock and an unlock of nothing. */
  lemma PollNothing<V>(d: World<V>, me: Session)
    ensures Poll(d, me, []) == Unlock(Lock(d, me, []), me)
  {
    var d' := Lock(d, me, []);
    assert d'.events + [] == d'.events;
    assert Publish(d'.outbox + NewRows([]), {}) == d'.outbox;
    assert InsertSnapshot(d'.snapshots, None) == d'.snapshots;
    assert d'.processed + {} == d'.processed;
    assert IdsOf([]) == {};
  }

  lemma BatchMarked<S(!new), V(!new)>(cfg: Config<S, V>, d: World<V>, me: Session, batch: seq<Event>)
    requires Inv(cfg, d) && Holding(d, me, batch, |batch|)
    ensures var d' := CommitBatch(d, me, batch);
      forall e :: e in batch ==> OutboxRow(e, true) in d'.outbox && (e.aggType != "" ==> e in d'.messages)
  {
    var d' := CommitBatch(d, me, batch);
    CommitBatchEffect(cfg, d, me, batch);
    forall e | e in batch
      ensures OutboxRow(e, true) in d'.outbox && (e.aggType != "" ==> e in d'.messages)
    {
      assert e in OutboxEvents(d.outbox) && e.id in IdsOf(batch);
      var i :| 0 <= i < |d.outbox| && OutboxEvents(d.outbox)[i] == e;
      assert d'.outbox[i] == OutboxRow(e, true);
      var j :| 0 <= j < |batch| && batch[j] == e;
    }
  }
}
