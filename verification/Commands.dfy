/** The command handlers of the sample (sample/command/create_product.go,
    sample/command/update_product.go): optimistic writers that load, track one
    event at version + 1 and save inside one transaction. */
module Commands {
  import opened Events
  import opened Aggregates
  import opened World
  import opened Saving
  import opened Loading
  import opened Machine
  import opened Postgres
  import opened Repository
  import opened Product
  import opened LossyProduct

  /** `e` is the newest event of its stream, in the log and in the outbox, and was
      put there by a command that began in state d; with lossless snapshots the
      whole stream replays to this product. */
  ghost predicate Recorded(
      cfg: Config<Product, ProductView>, d: World<ProductView>, d': World<ProductView>, e: Event, product: Product) {
    var stream := Stream(d'.events, e.aggId);
    && stream != [] && stream[|stream| - 1] == e
    && (Replayable(cfg) ==> e.version == |stream|)
    && Stream(d.events, e.aggId) <= stream[..|stream| - 1]
    && OutboxRow(e, false) in d'.outbox
    && (Faithful(cfg) ==> Replay(cfg.spec, stream) == Applied(Core(e.aggId, |stream|, product), true))
  }

  /** `e` is the one new event, at the end of log and outbox. */
  ghost predicate OnlyAdded<V>(d: World<V>, d': World<V>, e: Event) {
    d'.events == d.events + [e] && d'.outbox == d.outbox + [OutboxRow(e, false)]
  }

  lemma TrackProduct(spec: AggregateSpec<Product>, c: Core<Product>, e: Event)
    requires spec == ProductSpec(spec.marshal, spec.unmarshal) && Registered(e)
    ensures Track(spec, c, e).1.Nil? <==> e.body.name != "" && e.body.price > 0.0
    ensures Track(spec, c, e).0.state == Product(e.body.name, e.body.price) && Track(spec, c, e).0.version == e.version
  {
  }

  lemma RecordedBySave(
      cfg: Config<Product, ProductView>, d: World<ProductView>, d': World<ProductView>, e: Event, core: Core<Product>)
    requires SavedAs(cfg, d, d', e.aggId, core, [e]) && (Replayable(cfg) ==> Contiguous(d'.events))
    requires core.version == e.version
    ensures Recorded(cfg, d, d', e, core.state)
  {
    var stream := Stream(d'.events, e.aggId);
    assert stream[|stream| - 1..][0] == e;
    assert e in [e];
  }

  lemma RecordedSince(
      cfg: Config<Product, ProductView>, d: World<ProductView>, mid: World<ProductView>, d': World<ProductView>,
      e: Event, product: Product)
    requires d.events <= mid.events
    ensures Recorded(cfg, mid, d', e, product) ==> Recorded(cfg, d, d', e, product)
  {
    StreamPrefix(d.events, mid.events, e.aggId);
  }

  /** No snapshot is due at this version, or rollbacks are reported: then nil can be
      believed. */
  predicate NilCounts<S(!new), V(!new)>(cfg: Config<S, V>, version: int, reports: bool) {
    reports || cfg.frequency <= 0 || version % cfg.frequency != 0
  }

  ghost predicate Fresh<V>(d: World<V>, id: EventId) {
    forall x :: x in d.events ==> x.id != id
  }

  /** What an undisturbed command on a product does, and exactly when it succeeds. */
  lemma ProductCommand(
      cfg: Config<Product, ProductView>, d: World<ProductView>, me: Session, known: bool, core: Core<Product>, e: Event,
      refuses: bool, reports: bool)
    requires IsProductConfig(cfg) && Inv(cfg, d) && TrackedOn(cfg, d.events, e.aggId, known, core, []) && Registered(e)
    requires cfg.allowed(known, core, e) && e.aggType == PRODUCT_TYPE && e.version == core.version + 1
    ensures var (d', nil) := CommandResult(cfg, d, me, core, e, refuses, reports);
      && (nil && NilCounts(cfg, e.version, reports) ==> OnlyAdded(d, d', e))
      && (Replayable(cfg) && Fresh(d, e.id) && !refuses ==>
        (nil <==> e.body.name != "" && e.body.price > 0.0 && core.version == |Stream(d.events, e.aggId)|))
  {
    TrackProduct(cfg.spec, core, e);
    assert NewRows([e]) == [OutboxRow(e, false)];
    if Replayable(cfg) && Fresh(d, e.id) && !refuses {
      CommandSucceedsIff(cfg, d, me, known, core, e, refuses, reports);
    }
  }

  /** What the handlers share: the event is tracked and saved, and on success
      recorded.  Any error after Begin rolls back, and the aggregate is discarded
      with the call. */
  method TrackAndSave(
      repo: Repository<Product, ProductView>, tx: Tx<ProductView>, agg: AggregateRoot<Product>, e: Event,
      ghost known: bool)
      returns (err: Error)
    requires repo.store.db.Valid() && IsProductConfig(repo.store.db.cfg) && Registered(e) && e.aggType == PRODUCT_TYPE
    requires (tx as object) != repo.store.db && (agg as object) != repo.store.db && (agg as object) != tx
    requires tx.writes == NoWrites() && !tx.poisoned && agg.spec == repo.store.db.cfg.spec && agg.events == []
    requires TrackedOn(repo.store.db.cfg, repo.store.db.world.events, e.aggId, known, agg.Contents(), [])
    requires repo.store.db.cfg.allowed(known, agg.Contents(), e) && e.version == agg.version + 1
    modifies repo.store.db, tx, agg
    ensures repo.store.db.Valid() && Grows(repo.store.db.cfg, old(repo.store.db.world), repo.store.db.world)
    ensures err.Nil? ==> e.body.name != "" && e.body.price > 0.0
    ensures err.Nil? && NilCounts(repo.store.db.cfg, e.version, repo.store.db.reportsRollback) ==>
      Recorded(repo.store.db.cfg, old(repo.store.db.world), repo.store.db.world, e,
        Product(e.body.name, e.body.price))
    ensures old(repo.store.db.faults) <= repo.store.db.faults
    ensures err.Nil? && NilCounts(repo.store.db.cfg, e.version, repo.store.db.reportsRollback) ==>
      repo.store.db.faults == old(repo.store.db.faults)
    ensures !err.Nil? && repo.store.db.faults == old(repo.store.db.faults) ==>
      || e.body.name == "" || e.body.price <= 0.0 || repo.store.db.refusesSnapshots
      || !Admits(repo.store.db.world, SaveWrites<ProductView>([e], None))
    ensures repo.store.db.Calm(old(repo.store.db.faults)) ==>
      err.Nil? && NilCounts(repo.store.db.cfg, e.version, repo.store.db.reportsRollback) ==>
      OnlyAdded(old(repo.store.db.world), repo.store.db.world, e)
    ensures repo.store.db.Calm(old(repo.store.db.faults)) && !repo.store.db.refusesSnapshots ==>
      Replayable(repo.store.db.cfg) && Fresh(old(repo.store.db.world), e.id) ==>
      (err.Nil? <==>
        e.body.name != "" && e.body.price > 0.0 &&
        old(agg.version) == |Stream(old(repo.store.db.world).events, e.aggId)|)
    ensures repo.store.db.Calm(old(repo.store.db.faults)) ==>
      (repo.store.db.world, err.Nil?) == CommandResult(repo.store.db.cfg, old(repo.store.db.world), tx.session,
        old(agg.Contents()), e, repo.store.db.refusesSnapshots, repo.store.db.reportsRollback)
  {
    ghost var d, core := repo.store.db.world, agg.Contents();
    TrackProduct(agg.spec, core, e);
    ProductCommand(repo.store.db.cfg, d, tx.session, known, core, e,
      repo.store.db.refusesSnapshots, repo.store.db.reportsRollback);
    err := repo.TrackAndCommit(tx, agg, e, known);
    if err.Nil? && NilCounts(repo.store.db.cfg, e.version, repo.store.db.reportsRollback) {
      RecordedBySave(repo.store.db.cfg, d, repo.store.db.world, e, agg.Contents());
    }
  }

  class CreateProductHandler {
    const repo: Repository<Product, ProductView>

    constructor (repo: Repository<Product, ProductView>)
      ensures this.repo == repo
    {
      this.repo := repo;
    }

    /** The created event can only ever become version 1: on an id that has a
        stream already, the save is refused.  Undisturbed, nothing else is, but for a
        missing name and a price that is not positive. */
    method Handle(me: Session, id: AggId, name: string, price: real, eventId: EventId, now: int) returns (err: Error)
      requires repo.store.db.Valid() && HandledProducts(repo.store.db.cfg)
      modifies repo.store.db
      ensures repo.store.db.Valid() && Grows(repo.store.db.cfg, old(repo.store.db.world), repo.store.db.world)
      ensures err.Nil? ==> name != "" && price > 0.0
      ensures err.Nil? && NilCounts(repo.store.db.cfg, 1, repo.store.db.reportsRollback) ==>
        Recorded(repo.store.db.cfg, old(repo.store.db.world), repo.store.db.world,
          Event(eventId, id, PRODUCT_TYPE, ProductCreated(name, price), 1, now), Product(name, price))
      ensures err.Nil? && NilCounts(repo.store.db.cfg, 1, repo.store.db.reportsRollback) ==>
        repo.store.db.faults == old(repo.store.db.faults)
      ensures !err.Nil? && repo.store.db.faults == old(repo.store.db.faults) ==>
        || name == "" || price <= 0.0 || repo.store.db.refusesSnapshots
        || !Admits(repo.store.db.world, SaveWrites<ProductView>(
              [Event(eventId, id, PRODUCT_TYPE, ProductCreated(name, price), 1, now)], None))
      ensures repo.store.db.Calm(old(repo.store.db.faults)) ==>
        err.Nil? && NilCounts(repo.store.db.cfg, 1, repo.store.db.reportsRollback) ==>
        OnlyAdded(old(repo.store.db.world), repo.store.db.world,
          Event(eventId, id, PRODUCT_TYPE, ProductCreated(name, price), 1, now))
      ensures repo.store.db.Calm(old(repo.store.db.faults)) && !repo.store.db.refusesSnapshots ==>
        Replayable(repo.store.db.cfg) && Fresh(old(repo.store.db.world), eventId) ==>
        (err.Nil? <==> name != "" && price > 0.0 && Stream(old(repo.store.db.world).events, id) == [])
      ensures repo.store.db.Calm(old(repo.store.db.faults)) ==>
        (repo.store.db.world, err.Nil?) == CommandResult(repo.store.db.cfg, old(repo.store.db.world), me,
          EmptyCore(repo.store.db.cfg.spec), Event(eventId, id, PRODUCT_TYPE, ProductCreated(name, price), 1, now),
          repo.store.db.refusesSnapshots, repo.store.db.reportsRollback)
    {
      ghost var d := repo.store.db.world;
      GrowsReflexive(repo.store.db.cfg, d);
      var tx, failed := repo.store.db.Begin(me);
      if tx == null {
        return failed;
      }
      var agg := new AggregateRoot(repo.store.db.cfg.spec);
      var e := Event(eventId, id, PRODUCT_TYPE, ProductCreated(name, price), agg.version + 1, now);
      EmptyIsTracked(repo.store.db.cfg, d.events, id);
      err := TrackAndSave(repo, tx, agg, e, false);
    }
  }

  class UpdateProductHandler {
    const repo: Repository<Product, ProductView>

    constructor (repo: Repository<Product, ProductView>)
      ensures this.repo == repo
    {
      this.repo := repo;
    }

    /** A committed update is the next version of the stream, computed on the
        replay of everything before it.  `version` is the version it tracked, and 0 if
        nothing was loaded.  Undisturbed, it is refused only if what is loaded is not
        current, without a name, and at a price that is not positive. */
    method Handle(me: Session, id: AggId, name: string, price: real, eventId: EventId, now: int)
        returns (err: Error, ghost version: int)
      requires repo.store.db.Valid() && HandledProducts(repo.store.db.cfg)
      requires repo.store.db.cfg.allowed == HandlersTrack || Stream(repo.store.db.world.events, id) != []
      modifies repo.store.db
      ensures repo.store.db.Valid() && Grows(repo.store.db.cfg, old(repo.store.db.world), repo.store.db.world)
      ensures err.Nil? ==> name != "" && price > 0.0
      ensures err.Nil? && NilCounts(repo.store.db.cfg, version, repo.store.db.reportsRollback) ==>
        Recorded(repo.store.db.cfg, old(repo.store.db.world), repo.store.db.world,
          Event(eventId, id, PRODUCT_TYPE, ProductUpdated(name, price), version, now), Product(name, price))
      ensures err.Nil? && NilCounts(repo.store.db.cfg, version, repo.store.db.reportsRollback) ==>
        repo.store.db.faults == old(repo.store.db.faults)
      ensures !err.Nil? && repo.store.db.faults == old(repo.store.db.faults) && version != 0 ==>
        || name == "" || price <= 0.0 || repo.store.db.refusesSnapshots
        || !Admits(repo.store.db.world, SaveWrites<ProductView>(
              [Event(eventId, id, PRODUCT_TYPE, ProductUpdated(name, price), version, now)], None))
      ensures repo.store.db.Calm(old(repo.store.db.faults)) ==>
        err.Nil? && NilCounts(repo.store.db.cfg, version, repo.store.db.reportsRollback) ==>
        OnlyAdded(old(repo.store.db.world), repo.store.db.world,
          Event(eventId, id, PRODUCT_TYPE, ProductUpdated(name, price), version, now))
      ensures repo.store.db.Calm(old(repo.store.db.faults)) && !repo.store.db.refusesSnapshots ==>
        Replayable(repo.store.db.cfg) && Fresh(old(repo.store.db.world), eventId) ==>
        (err.Nil? <==> name != "" && price > 0.0 && LoadsCurrent(repo.store.db.cfg, old(repo.store.db.world), id))
      ensures repo.store.db.Calm(old(repo.store.db.faults)) ==>
        UpdateOutcome(repo.store.db.cfg, LoadedCore(repo.store.db.cfg, old(repo.store.db.world), id),
          old(repo.store.db.world), repo.store.db.world, err.Nil?, me,
          Event(eventId, id, PRODUCT_TYPE, ProductUpdated(name, price), version, now),
          repo.store.db.refusesSnapshots, repo.store.db.reportsRollback)
    {
      version := 0;
      ghost var d := repo.store.db.world;
      AllDecodable(repo.store.db.cfg, d, id);
      GrowsReflexive(repo.store.db.cfg, d);
      var tx, failed := repo.store.db.Begin(me);
      if tx == null {
        return failed, version;
      }
      var agg;
      agg, err := repo.Load(me, id);
      ghost var mid := repo.store.db.world;
      if agg == null {
        repo.store.db.Rollback(tx);
        GrowsTransitive(repo.store.db.cfg, d, mid, repo.store.db.world);
        return err, version;
      }
      ghost var core := agg.Contents();
      var e := Event(eventId, id, PRODUCT_TYPE, ProductUpdated(name, price), agg.version + 1, now);
      version := e.version;
      assert repo.store.db.cfg.allowed(Stream(d.events, id) != [], core, e);
      err := TrackAndSave(repo, tx, agg, e, Stream(d.events, id) != []);
      GrowsTransitive(repo.store.db.cfg, d, mid, repo.store.db.world);
      RecordedSince(repo.store.db.cfg, d, mid, repo.store.db.world, e, Product(name, price));
    }
  }

  lemma AllDecodable(cfg: Config<Product, ProductView>, d: World<ProductView>, a: AggId)
    requires HandledProducts(cfg) && Inv(cfg, d)
    ensures forall e :: e in Stream(d.events, a) ==> Registered(e)
  {
    AllRegistered(cfg, d.events);
    StreamMembers(d.events, a);
  }

  /** An undisturbed update fails without a trace if the load fails; otherwise it is
      the undisturbed command on what was loaded, at the version after it. */
  ghost predicate UpdateOutcome(
      cfg: Config<Product, ProductView>, loaded: Option<Core<Product>>, d: World<ProductView>, d': World<ProductView>,
      nil: bool, me: Session, e: Event, refuses: bool, reports: bool) {
    if loaded.None? then !nil && d' == Unlock(d, me)
    else
      e.version == loaded.value.version + 1 && (d', nil) == CommandResult(cfg, d, me, loaded.value, e, refuses, reports)
  }

  /** The snapshots of the sample carry neither id nor version, and so a command
      that is alone on a product can update it iff its newest snapshot is behind
      its stream. */
  lemma LossyLoadsCurrentIff(cfg: Config<Product, ProductView>, d: World<ProductView>, a: AggId)
    requires LossyProducts(cfg) && Inv(cfg, d)
    ensures LoadsCurrent(cfg, d, a) <==>
      var newest := LatestSnapshot(d.snapshots, a);
      newest.None? || Stream(d.events, a) == [] || newest.value.version < |Stream(d.events, a)|
  {
    var newest := LatestSnapshot(d.snapshots, a);
    LossyIsReplayable(cfg);
    AllDecodable(cfg, d, a);
    if newest.Some? {
      assert SnapshotBounded(cfg, d, newest.value);
    }
    var (from, start) := FromSnapshot(cfg.spec, newest).value;
    LossyTail(cfg.spec, d.events, a, from, start);
  }
}
