/** Loading and saving aggregates (eventsrc/aggregate_repository.go), and the
    transaction around a save. */
module Repository {
  import opened Events
  import opened Aggregates
  import opened World
  import opened Saving
  import opened Relaying
  import opened Loading
  import opened Postgres
  import opened EventStore

  /** The aggregate an undisturbed Load returns, if its snapshot can be read. */
  function LoadedCore<S(!new), V(!new)>(cfg: Config<S, V>, d: World<V>, a: AggId): Option<Core<S>> {
    var start := FromSnapshot(cfg.spec, LatestSnapshot(d.snapshots, a));
    if start.None? then None
    else Some(ReplayFrom(cfg.spec, start.value.1, RowsAfter(d.events, a, start.value.0)).core)
  }

  /** An undisturbed Load of `a` succeeds and ends at the version of the stream. */
  predicate LoadsCurrent<S(!new), V(!new)>(cfg: Config<S, V>, d: World<V>, a: AggId) {
    var loaded := LoadedCore(cfg, d, a);
    loaded.Some? && loaded.value.version == |Stream(d.events, a)|
  }

  lemma FaithfulLoadsCurrent<S(!new), V(!new)>(cfg: Config<S, V>, d: World<V>, a: AggId)
    requires Inv(cfg, d) && Faithful(cfg)
    ensures LoadsCurrent(cfg, d, a)
  {
    var row := LatestSnapshot(d.snapshots, a);
    if row.Some? {
      assert SnapshotAgrees(cfg, d.events, row.value);
    }
    SnapshotLoads(cfg, d, a);
    var start := FromSnapshot(cfg.spec, row).value;
    LoadIsReplay(cfg, d, a, Stream(d.events, a) != [], start.0, start.1);
  }

  /** Committing a tracked aggregate is safe now and later, whatever is committed
      in between: either the constraints refuse it or it still fits. */
  lemma SaveIsSafe<S(!new), V(!new)>(
      cfg: Config<S, V>, me: Session, d: World<V>, a: AggId, known: bool, core: Core<S>, es: seq<Event>,
      snapshot: Option<SnapshotRow>)
    requires es != [] && TrackedOn(cfg, d.events, a, known, core, es) && MaybeSnapshot(cfg, core, snapshot)
    ensures CommitSafe(cfg, me, d, SaveWrites(es, snapshot))
  {
    var w: Writes<V> := SaveWrites(es, snapshot);
    forall d' | Rely(cfg, me, d, d') && Admits(d', w)
      ensures Guarantee(cfg, me, d', Committed(d', me, w))
    {
      TrackedOnStable(cfg, d.events, d'.events, a, known, core, es);
      SaveKeepsInv(cfg, d', a, known, core, es, snapshot);
      UnlockKeepsInv(cfg, Merge(d', w), me);
      GrowsTransitive(cfg, d', Merge(d', w), Committed(d', me, w));
    }
  }

  /** `es` was appended to stream `a` by somebody who began in state d and ended
      in state d': everything d had is before it, and it waits in the outbox. */
  ghost predicate Appended<V>(d: World<V>, d': World<V>, a: AggId, es: seq<Event>) {
    var stream := Stream(d'.events, a);
    var n := |stream| - |es|;
    && 0 <= n && stream[n..] == es
    && Stream(d.events, a) <= stream[..n]
    && forall e :: e in es ==> OutboxRow(e, false) in d'.outbox
  }

  /** The aggregate that was saved is the replay of the new stream. */
  ghost predicate ReplaysTo<S(!new), V(!new)>(cfg: Config<S, V>, d: World<V>, a: AggId, core: Core<S>) {
    && Replay(cfg.spec, Stream(d.events, a)) == Applied(core, true)
    && cfg.spec.valid(core) && core.id == a && core.version == |Stream(d.events, a)|
  }

  /** What a committed save has achieved. */
  ghost predicate SavedAs<S(!new), V(!new)>(
      cfg: Config<S, V>, d: World<V>, d': World<V>, a: AggId, core: Core<S>, es: seq<Event>) {
    Appended(d, d', a, es) && (Faithful(cfg) ==> ReplaysTo(cfg, d', a, core))
  }

  lemma SavedByCommit<S(!new), V(!new)>(
      cfg: Config<S, V>, d: World<V>, before: World<V>, me: Session, a: AggId, known: bool, core: Core<S>,
      es: seq<Event>, snapshot: Option<SnapshotRow>)
    requires d.events <= before.events && Inv(cfg, before) && es != []
    requires TrackedOn(cfg, before.events, a, known, core, es)
    requires MaybeSnapshot(cfg, core, snapshot) && Admits(before, SaveWrites<V>(es, snapshot))
    ensures SavedAs(cfg, d, Committed(before, me, SaveWrites(es, snapshot)), a, core, es)
  {
    var d' := Merge(before, SaveWrites<V>(es, snapshot));
    SaveKeepsInv(cfg, before, a, known, core, es, snapshot);
    StreamGained(d, before, d', a, es);
    if Faithful(cfg) {
      HistoryGained(cfg, before, a, known, core, es);
    }
  }

  lemma HistoryGained<S(!new), V(!new)>(
      cfg: Config<S, V>, d: World<V>, a: AggId, known: bool, core: Core<S>, es: seq<Event>)
    requires Inv(cfg, d) && Faithful(cfg) && es != [] && UniqueVersions(d.events + es)
    requires TrackedOn(cfg, d.events, a, known, core, es)
    ensures Replay(cfg.spec, Stream(d.events + es, a)) == Applied(core, true)
    ensures cfg.spec.valid(core) && core.id == a && core.version == |Stream(d.events + es, a)|
  {
    ChainExtendsStream(d.events, es, a, core.version - |es|);
    SaveKeepsHistory(cfg, d, a, known, core, es);
    WholeReplay(cfg.spec, a, Stream(d.events + es, a));
  }

  lemma StreamGained<V>(d: World<V>, before: World<V>, d': World<V>, a: AggId, es: seq<Event>)
    requires d.events <= before.events && Stream(d'.events, a) == Stream(before.events, a) + es
    requires d'.outbox == Publish(before.outbox + NewRows(es), {})
    ensures Appended(d, d', a, es)
  {
    var stream := Stream(d'.events, a);
    assert stream[..|stream| - |es|] == Stream(before.events, a);
    StreamPrefix(d.events, before.events, a);
    forall e | e in es
      ensures OutboxRow(e, false) in d'.outbox
    {
      var i :| 0 <= i < |es| && es[i] == e;
      assert d'.outbox[|before.outbox| + i] == OutboxRow(e, false);
    }
  }

  /** All that an undisturbed save writes. */
  function WholeSave<S(!new), V(!new)>(cfg: Config<S, V>, core: Core<S>, es: seq<Event>): Writes<V> {
    SaveWrites(es, SnapshotOf(cfg.spec, cfg.frequency, core))
  }

  /** All that a command writes which tracks `e` on `core`. */
  function CommandWrites<S(!new), V(!new)>(cfg: Config<S, V>, core: Core<S>, e: Event): Writes<V> {
    WholeSave(cfg, Track(cfg.spec, core, e).0, [e])
  }

  ghost predicate IsSaveOf<S(!new), V(!new)>(cfg: Config<S, V>, w: Writes<V>, core: Core<S>, es: seq<Event>) {
    w == SaveWrites(es, w.snapshot) && MaybeSnapshot(cfg, core, w.snapshot)
  }

  lemma SavedIsSafe<S(!new), V(!new)>(
      cfg: Config<S, V>, me: Session, d: World<V>, saved: World<V>, a: AggId, known: bool, core: Core<S>,
      es: seq<Event>, w: Writes<V>)
    requires Rely(cfg, me, d, saved) && TrackedOn(cfg, d.events, a, known, core, es) && es != []
    requires IsSaveOf(cfg, w, core, es)
    ensures CommitSafe(cfg, me, saved, w) && TrackedOn(cfg, saved.events, a, known, core, es)
  {
    TrackedOnStable(cfg, d.events, saved.events, a, known, core, es);
    SaveIsSafe(cfg, me, saved, a, known, core, es, w.snapshot);
  }

  lemma CommittedSave<S(!new), V(!new)>(
      cfg: Config<S, V>, me: Session, d: World<V>, saved: World<V>, before: World<V>,
      a: AggId, known: bool, core: Core<S>, es: seq<Event>, w: Writes<V>)
    requires d.events <= saved.events && Rely(cfg, me, saved, before) && es != []
    requires TrackedOn(cfg, saved.events, a, known, core, es)
    requires IsSaveOf(cfg, w, core, es) && Admits(before, w)
    ensures SavedAs(cfg, d, Committed(before, me, w), a, core, es)
  {
    TrackedOnStable(cfg, saved.events, before.events, a, known, core, es);
    SavedByCommit(cfg, d, before, me, a, known, core, es, w.snapshot);
  }

  lemma TrackedOnce<S(!new), V(!new)>(cfg: Config<S, V>, events: seq<Event>, known: bool, core: Core<S>, e: Event)
    requires TrackedOn(cfg, events, e.aggId, known, core, [])
    requires cfg.allowed(known, core, e) && e.aggType == cfg.spec.aggType
    requires e.version == core.version + 1 && Track(cfg.spec, core, e).1.Nil?
    ensures TrackedOn(cfg, events, e.aggId, known, Track(cfg.spec, core, e).0, [e])
  {
    TrackKeepsTracked(cfg, events, e.aggId, known, core, [], e);
    assert [] + [e] == [e];
  }

  // ----- The outcome of an undisturbed save -----

  /** The snapshot is due and its INSERT fails, which Save only logs. */
  predicate SnapshotRefused<S(!new), V(!new)>(cfg: Config<S, V>, core: Core<S>, refuses: bool) {
    refuses && SnapshotOf(cfg.spec, cfg.frequency, core).Some?
  }

  /** The state after the transaction of an undisturbed save, and whether its result
      is nil; a save without events is nil and saves nothing.  `refuses`: the database
      rejects snapshot rows.  `reports`: the driver reports the commit of a poisoned
      transaction. */
  function SaveResult<S(!new), V(!new)>(
      cfg: Config<S, V>, d: World<V>, me: Session, core: Core<S>, es: seq<Event>, refuses: bool, reports: bool)
      : (World<V>, bool)
  {
    if es == [] then (Unlock(d, me), true)
    else if !Admits(d, WholeSave(cfg, core, es)) then (Unlock(d, me), false)
    else if SnapshotRefused(cfg, core, refuses) then (Unlock(d, me), !reports)
    else (Committed(d, me, WholeSave(cfg, core, es)), true)
  }

  /** The uncommitted events after such a save: they are cleared as soon as the store has
      taken them, and the commit is still to come (eventsrc/aggregate_repository.go:66-70). */
  function EventsLeft<S(!new), V(!new)>(
      cfg: Config<S, V>, d: World<V>, core: Core<S>, es: seq<Event>): seq<Event> {
    if Admits(d, WholeSave<S, V>(cfg, core, es)) then [] else es
  }

  lemma MergeNothing<V>(d: World<V>)
    ensures Merge(d, NoWrites()) == d
  {
    assert d.events + [] == d.events;
    assert Publish(d.outbox + NewRows([]), {}) == d.outbox;
  }

  /** A save without events commits nothing. */
  lemma NothingToCommit<S(!new), V(!new)>(cfg: Config<S, V>, me: Session, d: World<V>)
    requires Inv(cfg, d)
    ensures CommitSafe(cfg, me, d, NoWrites()) && Admits(d, NoWrites())
    ensures Committed(d, me, NoWrites()) == Unlock(d, me)
  {
    MergeNothing(d);
    assert d.events + [] == d.events && OutboxEvents(d.outbox) + [] == OutboxEvents(d.outbox);
    forall d' | Rely(cfg, me, d, d')
      ensures Guarantee(cfg, me, d', Committed(d', me, NoWrites()))
    {
      MergeNothing(d');
      UnlockKeepsInv(cfg, d', me);
    }
  }

  lemma AdmitsAnySnapshot<V>(d: World<V>, es: seq<Event>, x: Option<SnapshotRow>, y: Option<SnapshotRow>)
    ensures Admits(d, SaveWrites<V>(es, x)) == Admits(d, SaveWrites<V>(es, y)) == Admits(d, SaveWrites<V>(es, None))
  {
  }

  /** When may a caller believe nil?  A save that the constraints admit is reported
      as saved exactly when it was, if and only if the driver reports rollbacks or
      no due snapshot is refused. */
  lemma NilIsHonestIff<S(!new), V(!new)>(
      cfg: Config<S, V>, d: World<V>, me: Session, a: AggId, known: bool, core: Core<S>, es: seq<Event>,
      refuses: bool, reports: bool)
    requires Inv(cfg, d) && es != [] && TrackedOn(cfg, d.events, a, known, core, es)
    requires Admits(d, WholeSave<S, V>(cfg, core, es))
    ensures var (d', nil) := SaveResult(cfg, d, me, core, es, refuses, reports);
      (nil <==> SavedAs(cfg, d, d', a, core, es)) <==> (reports || !SnapshotRefused(cfg, core, refuses))
  {
    SavedByCommit(cfg, d, d, me, a, known, core, es, SnapshotOf(cfg.spec, cfg.frequency, core));
    var lost := Unlock(d, me);
    assert Stream(lost.events, a) == Stream(d.events, a);
    assert !Appended(d, lost, a, es) by {
      var n := |Stream(d.events, a)| - |es|;
      assert 0 <= n ==> |Stream(d.events, a)[..n]| < |Stream(d.events, a)|;
    }
  }

  lemma NotSaved<S(!new), V(!new)>(
      cfg: Config<S, V>, d: World<V>, d': World<V>, a: AggId, core: Core<S>, es: seq<Event>)
    requires es != [] && d'.events == d.events
    ensures !SavedAs(cfg, d, d', a, core, es)
  {
    var n := |Stream(d.events, a)| - |es|;
    assert 0 <= n ==> |Stream(d.events, a)[..n]| < |Stream(d.events, a)|;
  }

  /** After an error, may the same aggregate be saved again?  Its second result can be
      believed if and only if it still has its events.  It has lost them if the first
      transaction failed at its commit: then the second save is nil and saves nothing,
      and only discarding the aggregate, as the command handlers do, avoids it. */
  lemma RetryIsHonestIff<S(!new), V(!new)>(
      cfg: Config<S, V>, d: World<V>, me: Session, a: AggId, known: bool, core: Core<S>, es: seq<Event>,
      refuses: bool, reports: bool)
    requires Inv(cfg, d) && es != [] && TrackedOn(cfg, d.events, a, known, core, es)
    requires !SaveResult(cfg, d, me, core, es, refuses, reports).1
    ensures var d1, left := SaveResult(cfg, d, me, core, es, refuses, reports).0, EventsLeft(cfg, d, core, es);
      var (d2, nil) := SaveResult(cfg, d1, me, core, left, refuses, reports);
      && d2.events == d.events
      && ((nil ==> SavedAs(cfg, d1, d2, a, core, es)) <==> left != [])
      && (left == [] <==> reports && SnapshotRefused(cfg, core, refuses) && Admits(d, WholeSave<S, V>(cfg, core, es)))
  {
    var d1, left := SaveResult(cfg, d, me, core, es, refuses, reports).0, EventsLeft(cfg, d, core, es);
    var (d2, nil) := SaveResult(cfg, d1, me, core, left, refuses, reports);
    NotSaved(cfg, d1, d2, a, core, es);
  }

  class Repository<S(!new), V(!new)> {
    const store: Store<S, V>

    constructor (store: Store<S, V>)
      ensures this.store == store
    {
      this.store := store;
    }

    /** Load ignores both the version the store reports and the result of the
        replay, as the source does. */
    method Load(me: Session, a: AggId) returns (agg: AggregateRoot?<S>, err: Error)
      requires store.db.Valid()
      modifies store.db
      ensures store.db.Valid() && Rely(store.db.cfg, me, old(store.db.world), store.db.world)
      ensures agg == null <==> !err.Nil?
      ensures agg != null ==> fresh(agg) && agg.spec == store.db.cfg.spec && agg.events == []
      ensures agg != null ==>
        var known := Stream(old(store.db.world).events, a) != [];
        TrackedOn(store.db.cfg, store.db.world.events, a, known, agg.Contents(), [])
      ensures agg != null && Faithful(store.db.cfg) ==>
        Replay(agg.spec, Stream(store.db.world.events, a)) == Applied(agg.Contents(), true) &&
        agg.version == |Stream(store.db.world.events, a)|
      ensures old(store.db.faults) <= store.db.faults && (store.db.alone ==> store.db.world == old(store.db.world))
      ensures err.Nil? ==> store.db.faults == old(store.db.faults)
      ensures store.db.alone && agg != null ==> LoadedCore(store.db.cfg, store.db.world, a) == Some(agg.Contents())
      ensures store.db.Calm(old(store.db.faults)) && LoadedCore(store.db.cfg, store.db.world, a).Some? ==>
        (forall e :: e in Stream(store.db.world.events, a) ==> Registered(e)) ==> err.Nil?
    {
      agg := new AggregateRoot(store.db.cfg.spec);
      var snapshot, version, history, failed := store.Load(me, a);
      if !failed.Nil? {
        return null, failed;
      }
      if snapshot.Some? {
        err := agg.Restore(snapshot.value);
        if !err.Nil? {
          return null, err;
        }
      }
      assert agg.Contents() == Restored(agg.spec, snapshot);
      LoadIsReplay(store.db.cfg, store.db.world, a, Stream(old(store.db.world).events, a) != [],
        version, agg.Contents());
      var _ := agg.LoadFromHistory(history);
      return agg, Nil;
    }

    /** Save clears the uncommitted events once the store has taken them. */
    method Save(tx: Tx?<V>, agg: AggregateRoot<S>) returns (err: Error)
      requires store.db.Valid()
      requires (tx as object?) != store.db && (agg as object) != store.db && (agg as object) != tx
      requires agg.spec == store.db.cfg.spec && (tx != null ==> tx.writes.snapshot.None?)
      modifies store.db, tx, agg
      ensures store.db.Valid() && agg.Contents() == old(agg.Contents())
      ensures agg.events == if err.Nil? then [] else old(agg.events)
      ensures old(agg.events) == [] ==> err.Nil? && store.db.world == old(store.db.world)
      ensures old(agg.events) != [] && tx == null ==> err == NoTransaction && store.db.world == old(store.db.world)
      ensures tx != null ==> Rely(store.db.cfg, tx.session, old(store.db.world), store.db.world)
      ensures tx != null && err.Nil? && old(agg.events) == [] ==>
        tx.writes == old(tx.writes) && tx.poisoned == old(tx.poisoned)
      ensures tx != null && err.Nil? && old(agg.events) != [] ==>
        var w, w' := old(tx.writes), tx.writes;
        && (old(tx.poisoned) ==> tx.poisoned)
        && w' == w.(events := w.events + old(agg.events), outbox := w.outbox + old(agg.events), snapshot := w'.snapshot)
        && MaybeSnapshot(store.db.cfg, agg.Contents(), w'.snapshot)
      ensures tx != null && err.Nil? && !old(tx.poisoned) ==>
        SnapshotOf(agg.spec, store.db.cfg.frequency, agg.Contents()).None? ==> !tx.poisoned
      ensures tx != null && !err.Nil? ==> tx.poisoned
      ensures tx != null && err == Concurrency ==> !Unique(store.db.world.events + old(tx.writes).events + agg.events)
      ensures tx != null && err.Nil? && !tx.poisoned && old(agg.events) != [] ==>
        tx.writes.snapshot == SnapshotOf(agg.spec, store.db.cfg.frequency, agg.Contents())
      ensures err.Nil? && (tx != null ==> !tx.poisoned) ==> store.db.faults == old(store.db.faults)
      ensures old(store.db.faults) <= store.db.faults && (store.db.alone ==> store.db.world == old(store.db.world))
      ensures store.db.faults == old(store.db.faults) ==>
        tx != null && !old(tx.poisoned) && old(tx.writes) == NoWrites() ==>
        !err.Nil? ==> !Admits(store.db.world, SaveWrites<V>(old(agg.events), None))
      ensures store.db.Calm(old(store.db.faults)) ==>
        tx != null && !old(tx.poisoned) && old(tx.writes) == NoWrites() ==>
        (err.Nil? <==> old(agg.events) == [] || Admits(store.db.world, SaveWrites<V>(old(agg.events), None)))
      ensures store.db.faults == old(store.db.faults) ==>
        tx != null && err.Nil? && old(agg.events) != [] && !old(tx.poisoned) ==>
        (tx.poisoned <==> SnapshotRefused(store.db.cfg, agg.Contents(), store.db.refusesSnapshots))
    {
      if agg.events == [] {
        if tx != null {
          RelyReflexive(store.db.cfg, tx.session, store.db.world);
        }
        return Nil;
      }
      err := store.Save(tx, agg);
      if err.Nil? {
        agg.ClearUncommittedEvents();
      }
    }

    /** Save as the last act of WithTransaction (infra/postgres/db.go:37-52).  If the
        driver reports the commit of a poisoned transaction, or no snapshot is due,
        nil means that exactly these events are now the end of the stream, and that a
        snapshot is there if this version is a multiple of the frequency.  An error means
        a fault, a refused snapshot or a collision; after it the aggregate may have lost
        its events without having been saved. */
    method SaveAndCommit(tx: Tx<V>, agg: AggregateRoot<S>, ghost a: AggId, ghost known: bool) returns (err: Error)
      requires store.db.Valid()
      requires (tx as object) != store.db && (agg as object) != store.db && (agg as object) != tx
      requires tx.writes == NoWrites() && !tx.poisoned && agg.spec == store.db.cfg.spec
      requires agg.events != [] ==>
        TrackedOn(store.db.cfg, store.db.world.events, a, known, agg.Contents(), agg.events)
      modifies store.db, tx, agg
      ensures store.db.Valid() && Grows(store.db.cfg, old(store.db.world), store.db.world)
      ensures agg.Contents() == old(agg.Contents()) && (err.Nil? ==> agg.events == [])
      ensures agg.events == [] || agg.events == old(agg.events)
      ensures old(store.db.faults) <= store.db.faults
      ensures store.db.reportsRollback || SnapshotOf(agg.spec, store.db.cfg.frequency, agg.Contents()).None? ==>
        err.Nil? ==> store.db.faults == old(store.db.faults)
      ensures !err.Nil? && store.db.faults == old(store.db.faults) ==>
        || !Admits(store.db.world, SaveWrites<V>(old(agg.events), None))
        || SnapshotRefused(store.db.cfg, agg.Contents(), store.db.refusesSnapshots)
      ensures err.Nil? && old(agg.events) != [] && store.db.reportsRollback ==>
        agg.spec.marshal(agg.Contents()).Some? && 0 < store.db.cfg.frequency ==>
        agg.version % store.db.cfg.frequency == 0 ==> HasSnapshot(store.db.world.snapshots, agg.id, agg.version)
      ensures err.Nil? && old(agg.events) != [] && store.db.Calm(old(store.db.faults)) && !store.db.refusesSnapshots ==>
        SnapshotTaken(store.db.cfg, old(store.db.world), store.db.world, agg.Contents())
      ensures store.db.Calm(old(store.db.faults)) ==>
        agg.events == EventsLeft(store.db.cfg, old(store.db.world), agg.Contents(), old(agg.events))
      ensures store.db.reportsRollback || SnapshotOf(agg.spec, store.db.cfg.frequency, agg.Contents()).None? ==>
        err.Nil? && old(agg.events) != [] ==>
          SavedAs(store.db.cfg, old(store.db.world), store.db.world, a, agg.Contents(), old(agg.events))
      ensures store.db.Calm(old(store.db.faults)) ==>
        (store.db.world, err.Nil?) == SaveResult(store.db.cfg, old(store.db.world), tx.session, agg.Contents(),
          old(agg.events), store.db.refusesSnapshots, store.db.reportsRollback)
    {
      ghost var cfg, core, es, d := store.db.cfg, agg.Contents(), agg.events, store.db.world;
      err := Save(tx, agg);
      ghost var saved := store.db.world;
      if !err.Nil? {
        AdmitsAnySnapshot(d, es, None, SnapshotOf(cfg.spec, cfg.frequency, core));
        store.db.Rollback(tx);
        GrowsTransitive(cfg, d, saved, store.db.world);
        return err;
      }
      assert [] + es == es;
      ghost var w := tx.writes;
      if es == [] {
        NothingToCommit(cfg, tx.session, saved);
      } else {
        assert IsSaveOf(cfg, w, core, es);
        SavedIsSafe(cfg, tx.session, d, saved, a, known, core, es, w);
        AdmitsAnySnapshot(d, es, w.snapshot, SnapshotOf(cfg.spec, cfg.frequency, core));
      }
      ghost var effect, before;
      err, effect, before := store.db.Commit(tx);
      GrowsTransitive(cfg, d, saved, store.db.world);
      if effect && es != [] {
        CommittedSave(cfg, tx.session, d, saved, before, a, known, core, es, w);
        SaveTakesSnapshot(cfg, before, core, es);
        AdmitsAnySnapshot(before, es, w.snapshot, None);
      } else if es != [] {
        AdmitsAnySnapshot(before, es, w.snapshot, None);
      }
    }

    /** TrackChange on a fresh load, Save, and the end of WithTransaction. */
    method TrackAndCommit(tx: Tx<V>, agg: AggregateRoot<S>, e: Event, ghost known: bool) returns (err: Error)
      requires store.db.Valid()
      requires (tx as object) != store.db && (agg as object) != store.db && (agg as object) != tx
      requires tx.writes == NoWrites() && !tx.poisoned && agg.spec == store.db.cfg.spec && agg.events == []
      requires TrackedOn(store.db.cfg, store.db.world.events, e.aggId, known, agg.Contents(), [])
      requires store.db.cfg.allowed(known, agg.Contents(), e) && e.aggType == agg.spec.aggType
      requires e.version == agg.version + 1
      modifies store.db, tx, agg
      ensures store.db.Valid() && Grows(store.db.cfg, old(store.db.world), store.db.world)
      ensures agg.Contents() == Track(agg.spec, old(agg.Contents()), e).0
      ensures err.Nil? ==> Track(agg.spec, old(agg.Contents()), e).1.Nil?
      ensures old(store.db.faults) <= store.db.faults
      ensures store.db.reportsRollback || SnapshotOf(agg.spec, store.db.cfg.frequency, agg.Contents()).None? ==>
        err.Nil? ==> store.db.faults == old(store.db.faults)
      ensures !err.Nil? && store.db.faults == old(store.db.faults) ==>
        || !Track(agg.spec, old(agg.Contents()), e).1.Nil?
        || !Admits(store.db.world, SaveWrites<V>([e], None))
        || SnapshotRefused(store.db.cfg, agg.Contents(), store.db.refusesSnapshots)
      ensures store.db.reportsRollback || SnapshotOf(agg.spec, store.db.cfg.frequency, agg.Contents()).None? ==>
        err.Nil? ==> SavedAs(store.db.cfg, old(store.db.world), store.db.world, e.aggId, agg.Contents(), [e])
      ensures store.db.Calm(old(store.db.faults)) ==>
        (store.db.world, err.Nil?) == CommandResult(store.db.cfg, old(store.db.world),
          tx.session, old(agg.Contents()), e,
          store.db.refusesSnapshots, store.db.reportsRollback)
    {
      ghost var core := agg.Contents();
      GrowsReflexive(store.db.cfg, store.db.world);
      err := agg.TrackChange(e);
      if !err.Nil? {
        store.db.Rollback(tx);
        return err;
      }
      TrackedOnce(store.db.cfg, store.db.world.events, known, core, e);
      assert agg.events == [e];
      err := SaveAndCommit(tx, agg, e.aggId, known);
    }

    /** The round trip: what was saved and loaded again without interference or faults is
        the same, state, version and id, with nothing uncommitted. */
    method SaveThenLoad(tx: Tx<V>, agg: AggregateRoot<S>, a: AggId, ghost known: bool)
        returns (loaded: AggregateRoot?<S>, err: Error)
      requires store.db.Valid() && agg.events != [] && Faithful(store.db.cfg)
      requires store.db.alone
      requires (tx as object) != store.db && (agg as object) != store.db && (agg as object) != tx
      requires tx.writes == NoWrites() && !tx.poisoned && agg.spec == store.db.cfg.spec
      requires TrackedOn(store.db.cfg, store.db.world.events, a, known, agg.Contents(), agg.events)
      modifies store.db, tx, agg
      ensures loaded == null <==> !err.Nil?
      ensures loaded != null ==> fresh(loaded) && loaded.events == []
      ensures loaded != null ==>
        store.db.reportsRollback || (store.db.faults == old(store.db.faults) && !store.db.refusesSnapshots) ==>
        loaded.Contents() == old(agg.Contents())
      ensures store.db.faults == old(store.db.faults) ==>
        Admits(old(store.db.world), WholeSave<S, V>(store.db.cfg, agg.Contents(), old(agg.events))) ==>
        !SnapshotRefused(store.db.cfg, agg.Contents(), store.db.refusesSnapshots) ==>
        (forall e :: e in Stream(store.db.world.events, a) ==> Registered(e)) ==> err.Nil?
    {
      ghost var d, core, es := store.db.world, agg.Contents(), agg.events;
      err := SaveAndCommit(tx, agg, a, known);
      if !err.Nil? {
        return null, err;
      }
      if store.db.faults == old(store.db.faults) && Admits(d, WholeSave<S, V>(store.db.cfg, core, es)) {
        NilIsHonestIff(store.db.cfg, d, tx.session, a, known, core, es,
          store.db.refusesSnapshots, store.db.reportsRollback);
      }
      FaithfulLoadsCurrent(store.db.cfg, store.db.world, a);
      loaded, err := Load(tx.session, a);
    }
  }

  /** The state after an undisturbed command, and whether its result is nil. */
  function CommandResult<S(!new), V(!new)>(
      cfg: Config<S, V>, d: World<V>, me: Session, core: Core<S>, e: Event, refuses: bool, reports: bool)
      : (World<V>, bool)
  {
    if !Track(cfg.spec, core, e).1.Nil? then (Unlock(d, me), false)
    else SaveResult(cfg, d, me, Track(cfg.spec, core, e).0, [e], refuses, reports)
  }

  /** With a fresh event id, and no due snapshot refused, an undisturbed command
      succeeds if and only if its change is accepted and its aggregate is current. */
  lemma CommandSucceedsIff<S(!new), V(!new)>(
      cfg: Config<S, V>, d: World<V>, me: Session, known: bool, core: Core<S>, e: Event, refuses: bool, reports: bool)
    requires Replayable(cfg) && Inv(cfg, d) && TrackedOn(cfg, d.events, e.aggId, known, core, [])
    requires cfg.allowed(known, core, e) && e.aggType == cfg.spec.aggType && e.version == core.version + 1
    requires (forall x :: x in d.events ==> x.id != e.id) && !SnapshotRefused(cfg, Track(cfg.spec, core, e).0, refuses)
    ensures CommandResult(cfg, d, me, core, e, refuses, reports).1 <==>
      Track(cfg.spec, core, e).1.Nil? && core.version == |Stream(d.events, e.aggId)|
  {
    UniqueAppend(d.events, e);
    if Track(cfg.spec, core, e).1.Nil? {
      var core' := Track(cfg.spec, core, e).0;
      TrackedOnce(cfg, d.events, known, core, e);
      CommitsIffCurrent(cfg, d, e.aggId, known, core', [e], SnapshotOf(cfg.spec, cfg.frequency, core'));
    }
  }
}
