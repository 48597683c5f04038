/** Concrete runs of the sample: one product is created and updated, another id is
    updated without ever being created.  They show that the conditions of the general
    theorems are met by real states, and that what is lost with lossy snapshots, with
    pooled or hiding handlers and with unknown ids is really lost. */
module Scenario {
  import opened Events
  import opened Aggregates
  import opened World
  import opened Saving
  import opened Projecting
  import opened Relaying
  import opened Machine
  import opened Runs
  import opened Draining
  import opened Convergence
  import opened Gaps
  import opened Repository
  import opened Product
  import opened LossyProduct
  import opened Commands
  import opened Refinement
  import opened CatchUp
  import opened Overwriting
  import opened Recovery
  import opened Pooling

  const CREATED := Event(1, 1, PRODUCT_TYPE, ProductCreated("tea", 2.0), 1, 0)
  const UPDATED := Event(2, 1, PRODUCT_TYPE, ProductUpdated("tea", 3.0), 2, 1)
  const UNKNOWN := Event(1, 1, PRODUCT_TYPE, ProductUpdated("tea", 2.0), 1, 0)
  const TEA := Core(1, 1, Product("tea", 2.0))
  const UNNAMED := Core(NIL_ID, 1, Product("tea", 2.0))

  ghost predicate Idle(s: System<Product, ProductView>) {
    s.writers == map[] && s.relays == map[] && s.workers == map[]
  }

  /** A world in which these events have been saved and nothing else has happened. */
  ghost predicate Logged(d: World<ProductView>, es: seq<Event>) {
    d == InitialWorld<ProductView>().(events := es, outbox := NewRows(es), snapshots := d.snapshots)
  }

  lemma LogMore(
      cfg: Config<Product, ProductView>, d: World<ProductView>, before: seq<Event>, core: Core<Product>, e: Event)
    requires Logged(d, before) && Admits(d, CommandWrites<Product, ProductView>(cfg, core, e))
    ensures Logged(Merge(d, CommandWrites(cfg, core, e)), before + [e])
    ensures Merge(d, CommandWrites(cfg, core, e)).snapshots ==
      InsertSnapshot(d.snapshots, SnapshotOf(cfg.spec, cfg.frequency, Track(cfg.spec, core, e).0))
  {
    var w: Writes<ProductView> := CommandWrites(cfg, core, e);
    assert Publish(NewRows(before) + NewRows([e]), {}) == NewRows(before + [e]);
    assert d.processed + {} == {};
  }

  // ----- The first event -----

  /** The first command on an id nobody knows: a creation, or an update. */
  lemma FirstCommand(
      cfg: Config<Product, ProductView>, e: Event) returns (run: seq<Step>, s: System<Product, ProductView>)
    requires HandledProducts(cfg) && (e == CREATED || (e == UNKNOWN && cfg.allowed == HandlersTrack))
    ensures After(cfg, Start<Product, ProductView>(), run) == Some(s) && Idle(s) && Logged(s.world, [e])
    ensures s.world.snapshots ==
      InsertSnapshot([], SnapshotOf(cfg.spec, cfg.frequency, if e == CREATED then TEA else UNNAMED))
  {
    var start := Start<Product, ProductView>();
    var empty := EmptyCore(cfg.spec);
    assert NewRows([]) == [];
    assert start.world.events + [e] == [e] && OutboxEvents(start.world.outbox) + [e] == [e];
    LogMore(cfg, start.world, [], empty, e);
    assert [] + [e] == [e];
    s := start.(world := Merge(start.world, CommandWrites(cfg, empty, e)));
    if e == CREATED {
      run := CreateIsRun(cfg, start, 0, e);
    } else {
      assert LoadedCore(cfg, start.world, 1) == Some(empty);
      run := UpdateIsRun(cfg, start, 0, empty, e);
    }
  }

  /** The sample with a snapshot at every version: the product just created can
      never be updated. */
  lemma FirstSnapshotBlocks(cfg: Config<Product, ProductView>) returns (run: seq<Step>, s: System<Product, ProductView>)
    requires LossyProducts(cfg) && cfg.frequency == 1 && cfg.spec.marshal(TEA).Some?
    ensures After(cfg, Start<Product, ProductView>(), run) == Some(s)
    ensures Stream(s.world.events, 1) == [CREATED] && !LoadsCurrent(cfg, s.world, 1)
  {
    run, s := FirstCommand(cfg, CREATED);
    ReachableInv(cfg, s);
    assert [CREATED][..0] == [];
    assert Stream(s.world.events, 1) == [CREATED];
    var row := SnapshotRow(1, 1, cfg.spec.marshal(TEA).value);
    assert s.world.snapshots == [] + [row];
    NewestWins([], row);
    LossyLoadsCurrentIff(cfg, s.world, 1);
  }

  // ----- Two events -----

  /** The update of an unknown id commits, and so does the next one: their stream has
      two versions and no creation. */
  lemma UnknownTwice(cfg: Config<Product, ProductView>) returns (run: seq<Step>, s: System<Product, ProductView>)
    requires HandledProducts(cfg) && cfg.allowed == HandlersTrack
    ensures After(cfg, Start<Product, ProductView>(), run) == Some(s) && Idle(s) && Logged(s.world, [UNKNOWN, UPDATED])
  {
    var run0, s0 := FirstCommand(cfg, UNKNOWN);
    UnknownLoads(cfg, s0.world);
    UpdateFits(cfg, s0.world);
    var run1 := UpdateIsRun(cfg, s0, 0, UNNAMED, UPDATED);
    LogMore(cfg, s0.world, [UNKNOWN], UNNAMED, UPDATED);
    s := s0.(world := Merge(s0.world, CommandWrites(cfg, UNNAMED, UPDATED)));
    run := run0 + run1;
    AfterConcat(cfg, Start(), run0, s0, run1, s);
    assert [UNKNOWN] + [UPDATED] == [UNKNOWN, UPDATED];
  }

  lemma UnknownLoads(cfg: Config<Product, ProductView>, d: World<ProductView>)
    requires HandledProducts(cfg) && d.events == [UNKNOWN]
    requires d.snapshots == InsertSnapshot([], SnapshotOf(cfg.spec, cfg.frequency, UNNAMED))
    ensures Stream(d.events, 1) == [UNKNOWN] && LoadedCore(cfg, d, 1) == Some(UNNAMED)
  {
    assert [UNKNOWN][..0] == [];
    assert RowsAfter(d.events, 1, 0) == [UNKNOWN];
    ReplayOne(cfg.spec, EmptyCore(cfg.spec), UNKNOWN);
    assert LatestSnapshot(d.snapshots, 1) == None;
  }

  lemma UpdateFits(cfg: Config<Product, ProductView>, d: World<ProductView>)
    requires HandledProducts(cfg) && Logged(d, [UNKNOWN])
    ensures Admits(d, CommandWrites<Product, ProductView>(cfg, UNNAMED, UPDATED))
  {
    assert d.events + [UPDATED] == [UNKNOWN, UPDATED];
    assert OutboxEvents(d.outbox) + [UPDATED] == [UNKNOWN, UPDATED];
  }

  /** Creation and update in one save: no snapshot comes between them. */
  lemma CreateAndUpdate(cfg: Config<Product, ProductView>) returns (run: seq<Step>, s: System<Product, ProductView>)
    requires HandledProducts(cfg)
    ensures After(cfg, Start<Product, ProductView>(), run) == Some(s) && Idle(s) && Logged(s.world, [CREATED, UPDATED])
  {
    var start := Start<Product, ProductView>();
    var core := Core(1, 2, Product("tea", 3.0));
    var s1 := start.(writers := map[0 := Loaded(1, false, EmptyCore(cfg.spec), [])]);
    var s2 := start.(writers := map[0 := Loaded(1, false, TEA, [CREATED])]);
    var s3 := start.(writers := map[0 := Loaded(1, false, core, [CREATED, UPDATED])]);
    BothTrack(cfg, core);
    Extend(cfg, start, [], start, ByWriter(0, BeginCreate(1)), s1);
    assert [] + [CREATED] == [CREATED] && [CREATED] + [UPDATED] == [CREATED, UPDATED];
    assert s1.writers[0 := Loaded(1, false, TEA, [CREATED])] == s2.writers;
    assert s2.writers[0 := Loaded(1, false, core, [CREATED, UPDATED])] == s3.writers;
    Extend(cfg, start, [] + [ByWriter(0, BeginCreate(1))], s1, ByWriter(0, TrackEvent(CREATED)), s2);
    run := [] + [ByWriter(0, BeginCreate(1))] + [ByWriter(0, TrackEvent(CREATED))];
    Extend(cfg, start, run, s2, ByWriter(0, TrackEvent(UPDATED)), s3);
    run := run + [ByWriter(0, TrackEvent(UPDATED))];
    s := start.(world := Merge(start.world, SaveWrites([CREATED, UPDATED], Snapshot(cfg, core, true))));
    BothFit(cfg, start.world, core);
    assert s3.writers - {0} == map[];
    Extend(cfg, start, run, s3, ByWriter(0, CommitSave(true)), s);
    run := run + [ByWriter(0, CommitSave(true))];
  }

  lemma BothTrack(cfg: Config<Product, ProductView>, core: Core<Product>)
    requires HandledProducts(cfg) && core == Core(1, 2, Product("tea", 3.0))
    ensures cfg.allowed(false, EmptyCore(cfg.spec), CREATED) && cfg.allowed(false, TEA, UPDATED)
    ensures Track(cfg.spec, EmptyCore(cfg.spec), CREATED) == (TEA, Nil) && Track(cfg.spec, TEA, UPDATED) == (core, Nil)
    ensures cfg.spec.aggType == PRODUCT_TYPE
  {
  }

  lemma BothFit(cfg: Config<Product, ProductView>, d: World<ProductView>, core: Core<Product>)
    requires d == InitialWorld<ProductView>()
    ensures var w: Writes<ProductView> := SaveWrites([CREATED, UPDATED], Snapshot(cfg, core, true));
      Admits(d, w) && Logged(Merge(d, w), [CREATED, UPDATED])
  {
    FirstLog(d, [CREATED, UPDATED], Snapshot(cfg, core, true));
  }

  lemma FirstLog(d: World<ProductView>, es: seq<Event>, snapshot: Option<SnapshotRow>)
    requires d == InitialWorld<ProductView>() && UniqueIds(es) && UniqueVersions(es)
    ensures var w: Writes<ProductView> := SaveWrites(es, snapshot);
      Admits(d, w) && Logged(Merge(d, w), es)
  {
    assert [] + es == es;
    assert OutboxEvents([]) == [] && [] + NewRows(es) == NewRows(es);
    assert Publish(NewRows(es), {}) == NewRows(es);
    assert d.processed + {} == {};
  }

  // ----- Both events with the broker -----

  /** Both events are with the broker, nothing is processed. */
  ghost predicate Waiting(d: World<ProductView>, e: Event, i: nat, j: nat) {
    && d.events == [e, UPDATED] && d.views == map[] && d.processed == {} && d.acked == {}
    && i < |d.messages| && d.messages[i] == e
    && j < |d.messages| && d.messages[j] == UPDATED
  }

  lemma {:induction false} TopicKept(es: seq<Event>, e: Event)
    requires e in es && e.aggType != ""
    ensures e in WithTopic(es)
  {
    if e != es[0] {
      TopicKept(es[1..], e);
    }
  }

  lemma BothSent(cfg: Config<Product, ProductView>, s: System<Product, ProductView>, e: Event)
      returns (run: seq<Step>, s': System<Product, ProductView>, i: nat, j: nat)
    requires cfg.batchSize > 0 && Idle(s) && (e == CREATED || e == UNKNOWN) && Logged(s.world, [e, UPDATED])
    ensures After(cfg, s, run) == Some(s') && Idle(s') && Waiting(s'.world, e, i, j)
  {
    var rows := s.world.outbox;
    assert OutboxEvents(rows) == [e, UPDATED];
    var flat;
    run, s', flat := DrainRun(cfg, s, 0);
    assert rows[0] in rows && rows[1] in rows;
    assert e in Pending(rows) && UPDATED in Pending(rows);
    TopicKept(flat, e);
    TopicKept(flat, UPDATED);
    assert e in s'.world.messages && UPDATED in s'.world.messages;
    i :| i < |s'.world.messages| && s'.world.messages[i] == e;
    j :| j < |s'.world.messages| && s'.world.messages[j] == UPDATED;
  }

  lemma FirstIsNext(cfg: Config<Product, ProductView>, d: World<ProductView>, sub: SubId, e: Event, i: nat, j: nat)
    requires sub in cfg.subs && cfg.subs[sub].topic == PRODUCT_TYPE
    requires (e == CREATED || e == UNKNOWN) && Waiting(d, e, i, j)
    ensures NextTwo(cfg, d, sub, i, j) && ViewRow(d, sub, 1) == None
  {
  }

  /** A subscriber to products, and relays that take something at all. */
  ghost predicate Served(cfg: Config<Product, ProductView>, sub: SubId) {
    cfg.batchSize > 0 && sub in cfg.subs && cfg.subs[sub].topic == PRODUCT_TYPE
  }

  /** The created and updated product waits for its projection. */
  lemma TeaWaits(cfg: Config<Product, ProductView>, sub: SubId)
      returns (run: seq<Step>, s: System<Product, ProductView>, i: nat, j: nat)
    requires HandledProducts(cfg) && Served(cfg, sub)
    ensures After(cfg, Start<Product, ProductView>(), run) == Some(s) && Idle(s) && Waiting(s.world, CREATED, i, j)
    ensures NextTwo(cfg, s.world, sub, i, j) && Writable(cfg, s.world, sub, i, j)
    ensures Follows(cfg.subs[sub], Stream(s.world.events, 1))
  {
    var run0, s0 := CreateAndUpdate(cfg);
    var run1;
    run1, s, i, j := BothSent(cfg, s0, CREATED);
    run := run0 + run1;
    AfterConcat(cfg, Start(), run0, s0, run1, s);
    FirstIsNext(cfg, s.world, sub, CREATED, i, j);
    TeaOverwrites(cfg.subs[sub]);
    TeaFollows(cfg, sub);
  }

  lemma TeaOverwrites(sub: Subscription<ProductView>)
    requires sub.handle == ProjectProduct
    ensures Overwrites(sub, CREATED) && Overwrites(sub, UPDATED)
  {
  }

  lemma TeaFollows(cfg: Config<Product, ProductView>, sub: SubId)
    requires IsProductConfig(cfg) && sub in cfg.subs
    ensures Follows(cfg.subs[sub], Stream([CREATED, UPDATED], 1))
  {
    var es := [CREATED, UPDATED];
    assert Stream([CREATED], 1) == [CREATED] by {
      assert [CREATED][..0] == [];
    }
    assert es[..|es| - 1] == [CREATED];
    assert Stream(es, 1) == es;
    FollowsIffCreatedFirst(cfg.spec, cfg.subs[sub], es, 1);
  }

  // ----- What is lost -----

  /** "Processed events are within their views" holds in all reachable states of a
      product system, for every snapshot frequency, if and only if its projections
      write in the transaction. */
  lemma SafeIffTransactional(cfg: Config<Product, ProductView>, sub: SubId)
    requires HandledProducts(cfg) && Replayable(cfg) && Served(cfg, sub)
    ensures (forall s :: Reachable(cfg, s) ==> MarksWithinViews(cfg, s.world)) <==> !cfg.pooled
  {
    if cfg.pooled {
      var run0, s0, i, j := TeaWaits(cfg, sub);
      ReachableInv(cfg, s0);
      HarmlessIffTransactional(cfg, s0, 0, 1, sub, i, j);
      var run1, s1 :| After(cfg, s0, run1) == Some(s1) && !MarksWithinViews(cfg, s1.world);
      ReachableAfter(cfg, s0, run1, s1);
    } else {
      forall s | Reachable(cfg, s)
        ensures MarksWithinViews(cfg, s.world)
      {
        ReachableInv(cfg, s);
        TransactionalMarksWithin(cfg, s);
      }
    }
  }

  /** A projection like that of the sample fails once to write the created product and
      says nil: the product never gets a view, whatever runs afterwards. */
  lemma HiddenFailureHidesProduct(cfg: Config<Product, ProductView>, sub: SubId)
      returns (run: seq<Step>, s: System<Product, ProductView>)
    requires HandledProducts(cfg) && Replayable(cfg) && Served(cfg, sub)
    requires cfg.pooled && cfg.hides
    ensures After(cfg, Start<Product, ProductView>(), run) == Some(s) && CREATED in s.world.events
    ensures Processed(s.world, sub, CREATED)
    ensures forall more, s' :: After(cfg, s, more) == Some(s') ==> ViewRow(s'.world, sub, 1) == None
  {
    var run0, s0, i, j := TeaWaits(cfg, sub);
    ReachableInv(cfg, s0);
    FirstIsNext(cfg, s0.world, sub, CREATED, i, j);
    var run1;
    run1, s := HiddenFailureStopsView(cfg, s0, 0, sub, i);
    run := run0 + run1;
    AfterConcat(cfg, Start(), run0, s0, run1, s);
  }

  /** An id that was never created is updated twice.  Both updates commit; the first is
      delivered, handled and acknowledged, and leaves no view, whatever the projection
      is like; the second is out of order from then on, and there never is a view. */
  lemma UnknownIdHasNoView(cfg: Config<Product, ProductView>, sub: SubId)
      returns (run: seq<Step>, s: System<Product, ProductView>, i: nat, j: nat)
    requires HandledProducts(cfg) && Replayable(cfg) && cfg.allowed == HandlersTrack && Served(cfg, sub)
    ensures After(cfg, Start<Product, ProductView>(), run) == Some(s)
    ensures s.world.events == [UNKNOWN, UPDATED] && Processed(s.world, sub, UNKNOWN) && (i, sub) in s.world.acked
    ensures j < |s.world.messages| && s.world.messages[j] == UPDATED && !HandleCalmly(cfg, s.world, sub, UPDATED).1
    ensures forall more, s' :: After(cfg, s, more) == Some(s') ==> ViewRow(s'.world, sub, 1) == None
  {
    var run0, s0 := UnknownTwice(cfg);
    var run1, s1;
    run1, s1, i, j := BothSent(cfg, s0, UNKNOWN);
    AfterConcat(cfg, Start(), run0, s0, run1, s1);
    ReachableInv(cfg, s1);
    FirstIsNext(cfg, s1.world, sub, UNKNOWN, i, j);
    s := s1.(world := Redeliver(cfg, s1.world, sub, i));
    UnknownDelivered(cfg, s1.world, sub, i, j);
    var run2 := RedeliverIsRun(cfg, s1, 0, sub, i);
    run := run0 + run1 + run2;
    AfterConcat(cfg, Start(), run0 + run1, s1, run2, s);
    RunKeepsInv(cfg, s1, run2, s);
    forall more, s' | After(cfg, s, more) == Some(s')
      ensures ViewRow(s'.world, sub, 1) == None
    {
      StuckForever(cfg, s, more, s', sub, UNKNOWN);
    }
  }

  lemma UnknownDelivered(cfg: Config<Product, ProductView>, d: World<ProductView>, sub: SubId, i: nat, j: nat)
    requires IsProductConfig(cfg) && NextTwo(cfg, d, sub, i, j) && Waiting(d, UNKNOWN, i, j)
    ensures var d' := Redeliver(cfg, d, sub, i);
      && d'.events == d.events && d'.messages == d.messages && (i, sub) in d'.acked
      && Gap(d', sub, UNKNOWN) && ViewRow(d', sub, 1) == None && !Processed(d', sub, UPDATED)
  {
    var row := cfg.subs[sub].handle(ViewRow(d, sub, 1), UNKNOWN);
    assert row == None;
    if cfg.pooled {
      ProjectionMerge(PooledWrite(cfg, d, sub, UNKNOWN), MarkWrites(sub, UNKNOWN), sub, UNKNOWN, None);
    } else {
      ProjectionMerge(d, HandleWrites(sub, UNKNOWN, row), sub, UNKNOWN, row);
    }
    assert UNKNOWN == [UNKNOWN, UPDATED][0];
  }

  // ----- What can still be caught up -----

  ghost predicate Recoverable(
      cfg: Config<Product, ProductView>, s: System<Product, ProductView>, sub: SubId, a: AggId)
    requires sub in cfg.subs
  {
    exists run, s' :: After(cfg, s, run) == Some(s') && UpToDate(cfg, s'.world, sub, a)
  }

  lemma StaysRebuilding(
      cfg: Config<Product, ProductView>, s: System<Product, ProductView>, run: seq<Step>,
      s': System<Product, ProductView>, sub: SubId, a: AggId)
    requires HandledProducts(cfg) && Replayable(cfg) && sub in cfg.subs
    requires Reachable(cfg, s) && After(cfg, s, run) == Some(s')
    requires Stream(s.world.events, a) != [] && Stream(s.world.events, a)[0].body.ProductCreated?
    ensures Rebuilding(cfg, s'.world, sub, a)
  {
    ReachableInv(cfg, s);
    RunKeepsInv(cfg, s, run, s');
    ReachableAfter(cfg, s, run, s');
    StreamPrefix(s.world.events, s'.world.events, a);
    ProductIsRebuilding(cfg, s', sub, a);
  }

  /** From any reachable state of a product system, the sample included, the view of a
      created product can still become up to date, if and only if the projection writes
      in the transaction or the view is not doomed. */
  lemma ProductCatchesUpIff(
      cfg: Config<Product, ProductView>, s: System<Product, ProductView>, sub: SubId, a: AggId)
    requires HandledProducts(cfg) && Replayable(cfg) && Served(cfg, sub) && Reachable(cfg, s)
    requires Stream(s.world.events, a) != [] && Stream(s.world.events, a)[0].body.ProductCreated?
    ensures Recoverable(cfg, s, sub, a) <==>
      !cfg.pooled || forall e :: e in s.world.events && e.aggId == a ==> !Doomed(s, sub, e)
  {
    ProductIsRebuilding(cfg, s, sub, a);
    if cfg.pooled {
      CatchesUpIff(cfg, s, sub, a);
      forall run, s' | After(cfg, s, run) == Some(s')
        ensures Rebuilding(cfg, s'.world, sub, a)
      {
        StaysRebuilding(cfg, s, run, s', sub, a);
      }
    } else {
      var run, s' := AlwaysCatchesUp(cfg, s, sub);
      assert Followed(cfg, s.world, sub, a);
    }
  }
}
