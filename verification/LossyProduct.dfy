/** Products with the snapshots the sample really takes.  AggregateRoot's fields
    are unexported (eventsrc/aggregate.go:40-47), so a product snapshot carries the
    product only, and neither id nor version (sample/domain/aggregate/product_aggregate.go:36-61).

    The product itself always survives a load.  The version survives exactly when
    an event follows the snapshot; when none does, the stream is frozen: no command
    that loads it from then on can ever append to it again. */
module LossyProduct {
  import opened Events
  import opened Aggregates
  import opened World
  import opened Saving
  import opened Loading
  import opened Machine
  import opened Runs
  import opened Safety
  import opened Product

  ghost predicate CarriesProductOnly(spec: AggregateSpec<Product>) {
    forall c :: spec.marshal(c).Some? ==> spec.unmarshal(spec.marshal(c).value) == Some(Core(NIL_ID, 0, c.state))
  }

  /** The products of the sample, whatever its projections do. */
  ghost predicate LossyProducts(cfg: Config<Product, ProductView>) {
    HandledProducts(cfg) && CarriesProductOnly(cfg.spec)
  }

  /** The product after the first n > 0 events of a stream. */
  function ProductAt(events: seq<Event>, a: AggId, n: int): Product
    requires 1 <= n <= |Stream(events, a)|
  {
    StateOf(Stream(events, a)[n - 1])
  }

  ghost predicate SnapshotShows(cfg: Config<Product, ProductView>, events: seq<Event>, row: SnapshotRow) {
    row.aggId != NIL_ID ==>
      && 1 <= row.version <= |Stream(events, row.aggId)|
      && cfg.spec.unmarshal(row.payload) == Some(Core(NIL_ID, 0, ProductAt(events, row.aggId, row.version)))
  }

  ghost predicate WriterShows(events: seq<Event>, w: Writer<Product>) {
    match w
    case Loading(a, _, from, core) =>
      && core.id == NIL_ID && core.version == 0
      && (from != 0 && a != NIL_ID ==> 1 <= from <= |Stream(events, a)| && core.state == ProductAt(events, a, from))
    case Loaded(a, _, core, es) =>
      && (core.id == NIL_ID || core.id == a)
      && (es != [] ==> core.state == StateOf(es[|es| - 1]))
  }

  ghost predicate ProductInv(cfg: Config<Product, ProductView>, s: System<Product, ProductView>) {
    && SystemInv(cfg, s)
    && (forall row :: row in s.world.snapshots ==> SnapshotShows(cfg, s.world.events, row))
    && (forall w :: w in s.writers ==> WriterShows(s.world.events, s.writers[w]))
  }

  lemma LossyIsReplayable(cfg: Config<Product, ProductView>)
    requires LossyProducts(cfg)
    ensures Replayable(cfg)
  {
    ProductsAreReplayable(cfg);
  }

  lemma AllRegistered(cfg: Config<Product, ProductView>, events: seq<Event>)
    requires HandledProducts(cfg) && AllTracked(cfg, events)
    ensures forall e :: e in events ==> Registered(e)
  {
    forall e | e in events
      ensures Registered(e)
    {
      TrackedProduct(cfg, e);
    }
  }

  // ----- Snapshots and writers show the product of their stream -----

  lemma ShownStays(events: seq<Event>, events': seq<Event>, a: AggId, n: int)
    requires events <= events' && 1 <= n <= |Stream(events, a)|
    ensures n <= |Stream(events', a)| && ProductAt(events', a, n) == ProductAt(events, a, n)
  {
    StreamPrefix(events, events', a);
  }

  lemma QueryKeepsShowing(
      cfg: Config<Product, ProductView>, s: System<Product, ProductView>, w: nat, s': System<Product, ProductView>)
    requires LossyProducts(cfg) && ProductInv(cfg, s) && TakeWriter(cfg, s, w, QueryTail) == Some(s')
    ensures WriterShows(s'.world.events, s'.writers[w])
  {
    var Loading(a, _, from, core) := s.writers[w];
    ReplayProducts(cfg.spec, core, RowsAfter(s.world.events, a, from), a);
  }

  lemma SaveKeepsShowing(
      cfg: Config<Product, ProductView>, s: System<Product, ProductView>, w: nat, withSnapshot: bool,
      s': System<Product, ProductView>)
    requires LossyProducts(cfg) && ProductInv(cfg, s) && TakeWriter(cfg, s, w, CommitSave(withSnapshot)) == Some(s')
    ensures forall row :: row in s'.world.snapshots ==> SnapshotShows(cfg, s'.world.events, row)
    ensures forall x :: x in s'.writers ==> WriterShows(s'.world.events, s'.writers[x])
  {
    SavedSnapshotShows(cfg, s, w, withSnapshot, s');
    WritersStillShow(s, w, s');
  }

  lemma SavedSnapshotShows(
      cfg: Config<Product, ProductView>, s: System<Product, ProductView>, w: nat, withSnapshot: bool,
      s': System<Product, ProductView>)
    requires LossyProducts(cfg) && ProductInv(cfg, s) && TakeWriter(cfg, s, w, CommitSave(withSnapshot)) == Some(s')
    ensures forall row :: row in s'.world.snapshots ==> SnapshotShows(cfg, s'.world.events, row)
  {
    var Loaded(a, known, core, es) := s.writers[w];
    assert WriterShows(s.world.events, s.writers[w]);
    SavedStream(cfg, s, w, withSnapshot, s');
    LastIsShown(s.world.events, s'.world.events, a, core, es);
    SavedSnapshotsShow(cfg, s.world, s'.world, a, core, withSnapshot);
  }

  lemma LastIsShown(events: seq<Event>, events': seq<Event>, a: AggId, core: Core<Product>, es: seq<Event>)
    requires Stream(events', a) == Stream(events, a) + es && es != []
    requires core.version == |Stream(events, a)| + |es| && core.state == StateOf(es[|es| - 1])
    ensures 1 <= core.version <= |Stream(events', a)| && core.state == ProductAt(events', a, core.version)
  {
    assert Stream(events', a)[core.version - 1] == es[|es| - 1];
  }

  lemma SavedStream(
      cfg: Config<Product, ProductView>, s: System<Product, ProductView>, w: nat, withSnapshot: bool,
      s': System<Product, ProductView>)
    requires LossyProducts(cfg) && SystemInv(cfg, s) && TakeWriter(cfg, s, w, CommitSave(withSnapshot)) == Some(s')
    ensures var Loaded(a, known, core, es) := s.writers[w];
      && core.version == |Stream(s.world.events, a)| + |es|
      && Stream(s'.world.events, a) == Stream(s.world.events, a) + es
  {
    LossyIsReplayable(cfg);
    var Loaded(a, known, core, es) := s.writers[w];
    assert WriterOk(cfg, s.world, s.writers[w]);
    SaveKeepsInv(cfg, s.world, a, known, core, es, Snapshot(cfg, core, withSnapshot));
  }

  lemma SavedSnapshotsShow(
      cfg: Config<Product, ProductView>, d: World<ProductView>, d': World<ProductView>, a: AggId, core: Core<Product>,
      withSnapshot: bool)
    requires CarriesProductOnly(cfg.spec) && d.events <= d'.events
    requires forall row :: row in d.snapshots ==> SnapshotShows(cfg, d.events, row)
    requires d'.snapshots == InsertSnapshot(d.snapshots, Snapshot(cfg, core, withSnapshot))
    requires 1 <= core.version <= |Stream(d'.events, a)| && core.state == ProductAt(d'.events, a, core.version)
    requires core.id == NIL_ID || core.id == a
    ensures forall row :: row in d'.snapshots ==> SnapshotShows(cfg, d'.events, row)
  {
    forall row | row in d'.snapshots
      ensures SnapshotShows(cfg, d'.events, row)
    {
      if row in d.snapshots {
        assert SnapshotShows(cfg, d.events, row);
        if row.aggId != NIL_ID {
          ShownStays(d.events, d'.events, row.aggId, row.version);
        }
      }
    }
  }

  lemma WritersStillShow(s: System<Product, ProductView>, w: nat, s': System<Product, ProductView>)
    requires s.world.events <= s'.world.events && s'.writers == s.writers - {w}
    requires forall x :: x in s.writers ==> WriterShows(s.world.events, s.writers[x])
    ensures forall x :: x in s'.writers ==> WriterShows(s'.world.events, s'.writers[x])
  {
    forall x | x in s'.writers
      ensures WriterShows(s'.world.events, s'.writers[x])
    {
      assert WriterShows(s.world.events, s.writers[x]);
      if s.writers[x].Loading? && s.writers[x].from != 0 && s.writers[x].agg != NIL_ID {
        ShownStays(s.world.events, s'.world.events, s.writers[x].agg, s.writers[x].from);
      }
    }
  }

  lemma WriterStepShows(
      cfg: Config<Product, ProductView>, s: System<Product, ProductView>, w: nat, step: WriterStep,
      s': System<Product, ProductView>)
    requires LossyProducts(cfg) && ProductInv(cfg, s) && TakeWriter(cfg, s, w, step) == Some(s')
    ensures forall row :: row in s'.world.snapshots ==> SnapshotShows(cfg, s'.world.events, row)
    ensures forall x :: x in s'.writers ==> WriterShows(s'.world.events, s'.writers[x])
  {
    match step
    case BeginCreate(a) =>
    case QuerySnapshot(a) => SnapshotRead(cfg, s, a);
    case QueryTail =>
      AllRegistered(cfg, s.world.events);
      QueryKeepsShowing(cfg, s, w, s');
    case TrackEvent(e) =>
    case CommitSave(withSnapshot) => SaveKeepsShowing(cfg, s, w, withSnapshot, s');
    case Abandon =>
  }

  lemma SnapshotRead(cfg: Config<Product, ProductView>, s: System<Product, ProductView>, a: AggId)
    requires LossyProducts(cfg) && ProductInv(cfg, s)
    ensures var r := FromSnapshot(cfg.spec, LatestSnapshot(s.world.snapshots, a));
      r.Some? ==> WriterShows(s.world.events, Loading(a, Stream(s.world.events, a) != [], r.value.0, r.value.1))
  {
    LossyIsReplayable(cfg);
    var row := LatestSnapshot(s.world.snapshots, a);
    if row.Some? {
      assert SnapshotShows(cfg, s.world.events, row.value) && SnapshotBounded(cfg, s.world, row.value);
    }
  }

  lemma StepKeepsShowing(
      cfg: Config<Product, ProductView>, s: System<Product, ProductView>, step: Step, s': System<Product, ProductView>)
    requires LossyProducts(cfg) && ProductInv(cfg, s) && Take(cfg, s, step) == Some(s')
    ensures ProductInv(cfg, s')
  {
    StepKeepsInv(cfg, s, step, s');
    match step
    case ByWriter(w, action) => WriterStepShows(cfg, s, w, action, s');
    case ByRelay(r, move) => RelayKeepsWriteSide(cfg, s, r, move, s');
    case ByWorker(p, act) => WorkerKeepsWriteSide(cfg, s, p, act, s');
  }

  lemma {:induction false} RunKeepsShowing(
      cfg: Config<Product, ProductView>, s: System<Product, ProductView>, run: seq<Step>,
      s': System<Product, ProductView>)
    requires LossyProducts(cfg) && ProductInv(cfg, s) && After(cfg, s, run) == Some(s')
    ensures ProductInv(cfg, s')
    decreases |run|
  {
    if run != [] {
      var mid := Take(cfg, s, run[0]).value;
      StepKeepsShowing(cfg, s, run[0], mid);
      RunKeepsShowing(cfg, mid, run[1..], s');
    }
  }

  lemma ReachableShows(cfg: Config<Product, ProductView>, s: System<Product, ProductView>)
    requires LossyProducts(cfg) && Reachable(cfg, s)
    ensures ProductInv(cfg, s)
  {
    var run :| After(cfg, Start<Product, ProductView>(), run) == Some(s);
    StartInv(cfg);
    RunKeepsShowing(cfg, Start(), run, s);
  }

  // ----- What a load brings back -----

  /** A load returns the product of the whole stream, from any snapshot; its
      version is right iff an event follows the snapshot, and 0 otherwise. */
  lemma LoadKeepsProduct(
      cfg: Config<Product, ProductView>, s: System<Product, ProductView>, w: nat, s': System<Product, ProductView>)
    requires LossyProducts(cfg) && Reachable(cfg, s) && Take(cfg, s, ByWriter(w, QueryTail)) == Some(s')
    requires s.writers[w].agg != NIL_ID && Stream(s.world.events, s.writers[w].agg) != []
    ensures var Loading(a, _, from, _) := s.writers[w];
      var stream, core := Stream(s.world.events, a), s'.writers[w].core;
      && core.state == Replay(cfg.spec, stream).core.state
      && (core.version == |stream| <==> from < |stream|)
      && (core.version == 0 <==> from == |stream|)
  {
    ReachableShows(cfg, s);
    LossyIsReplayable(cfg);
    AllRegistered(cfg, s.world.events);
    var Loading(a, _, from, core) := s.writers[w];
    assert WriterShows(s.world.events, s.writers[w]) && WriterOk(cfg, s.world, s.writers[w]);
    TailKeepsProduct(cfg.spec, s.world.events, a, from, core);
  }

  lemma LossyTail(spec: AggregateSpec<Product>, events: seq<Event>, a: AggId, from: nat, start: Core<Product>)
    requires spec == ProductSpec(spec.marshal, spec.unmarshal) && Contiguous(events) && start.version == 0
    requires forall e :: e in Stream(events, a) ==> Registered(e)
    ensures ReplayFrom(spec, start, RowsAfter(events, a, from)).core.version ==
      if from < |Stream(events, a)| then |Stream(events, a)| else 0
  {
    var es := Stream(events, a);
    StreamMembers(events, a);
    RowsAfterIsSuffix(events, a, from);
    ReplayProducts(spec, start, RowsAfter(events, a, from), a);
    if from < |es| {
      assert es[|es| - 1].version == |es|;
    }
  }

  lemma TailKeepsProduct(spec: AggregateSpec<Product>, events: seq<Event>, a: AggId, from: nat, start: Core<Product>)
    requires spec == ProductSpec(spec.marshal, spec.unmarshal) && Contiguous(events) && start.version == 0
    requires (forall e :: e in events ==> Registered(e)) && Stream(events, a) != []
    requires from <= |Stream(events, a)| && (from != 0 ==> start.state == ProductAt(events, a, from))
    ensures var core, stream := ReplayFrom(spec, start, RowsAfter(events, a, from)).core, Stream(events, a);
      && core.state == Replay(spec, stream).core.state
      && (core.version == |stream| <==> from < |stream|)
      && (core.version == 0 <==> from == |stream|)
  {
    StreamMembers(events, a);
    LossyTail(spec, events, a, from, start);
    TailKeepsState(spec, events, a, from, start);
  }

  lemma TailKeepsState(spec: AggregateSpec<Product>, events: seq<Event>, a: AggId, from: nat, start: Core<Product>)
    requires spec == ProductSpec(spec.marshal, spec.unmarshal) && Contiguous(events)
    requires (forall e :: e in Stream(events, a) ==> Registered(e)) && 0 < |Stream(events, a)|
    requires from <= |Stream(events, a)| && (from != 0 ==> start.state == ProductAt(events, a, from))
    ensures ReplayFrom(spec, start, RowsAfter(events, a, from)).core.state == Replay(spec, Stream(events, a)).core.state
  {
    StreamMembers(events, a);
    RowsAfterIsSuffix(events, a, from);
    ReplayProducts(spec, start, RowsAfter(events, a, from), a);
    ReplayProducts(spec, EmptyCore(spec), Stream(events, a), a);
  }

  // ----- Frozen streams -----

  /** The newest snapshot of `a` is at the end of its stream, and no command is about
      to load the events before it. */
  ghost predicate Frozen(s: System<Product, ProductView>, a: AggId) {
    && Stream(s.world.events, a) != []
    && LatestSnapshot(s.world.snapshots, a).Some?
    && LatestSnapshot(s.world.snapshots, a).value.version == |Stream(s.world.events, a)|
    && forall w :: w in s.writers && s.writers[w].agg == a ==> LateWriter(s.writers[w], |Stream(s.world.events, a)|)
  }

  /** Based on too short a stream to commit. */
  ghost predicate LateWriter(w: Writer<Product>, n: nat) {
    match w
    case Loading(_, _, from, core) => from == n && core.version == 0
    case Loaded(_, _, core, es) => core.version - |es| < n
  }

  lemma SaveElsewhere(
      cfg: Config<Product, ProductView>, s: System<Product, ProductView>, w: nat, withSnapshot: bool,
      s': System<Product, ProductView>, a: AggId)
    requires LossyProducts(cfg) && ProductInv(cfg, s) && a != NIL_ID && Frozen(s, a)
    requires TakeWriter(cfg, s, w, CommitSave(withSnapshot)) == Some(s')
    ensures Frozen(s', a) && Stream(s'.world.events, a) == Stream(s.world.events, a)
  {
    LossyIsReplayable(cfg);
    var Loaded(b, known, core, es) := s.writers[w];
    if b == a {
      OldBaseCannotCommit(cfg, s, w, withSnapshot);
    } else {
      assert WriterOk(cfg, s.world, s.writers[w]) && WriterShows(s.world.events, s.writers[w]);
      StreamGrows(s.world.events, es, b, a);
      LatestElsewhere(s.world.snapshots, Snapshot(cfg, core, withSnapshot), a);
    }
  }

  lemma LatestElsewhere(rows: seq<SnapshotRow>, row: Option<SnapshotRow>, a: AggId)
    requires row.Some? ==> row.value.aggId != a
    ensures LatestSnapshot(InsertSnapshot(rows, row), a) == LatestSnapshot(rows, a)
  {
    if row.Some? {
      assert (rows + [row.value])[..|rows|] == rows;
    }
  }

  lemma FrozenTail(
      cfg: Config<Product, ProductView>, s: System<Product, ProductView>, w: nat, s': System<Product, ProductView>,
      a: AggId)
    requires Contiguous(s.world.events) && Frozen(s, a) && TakeWriter(cfg, s, w, QueryTail) == Some(s')
    ensures Frozen(s', a)
  {
    if s.writers[w].agg == a {
      assert LateWriter(s.writers[w], |Stream(s.world.events, a)|);
      RowsAfterIsSuffix(s.world.events, a, |Stream(s.world.events, a)|);
    }
  }

  lemma FrozenTrack(
      cfg: Config<Product, ProductView>, s: System<Product, ProductView>, w: nat, e: Event,
      s': System<Product, ProductView>, a: AggId)
    requires AppliesVersions(cfg.spec) && Frozen(s, a) && TakeWriter(cfg, s, w, TrackEvent(e)) == Some(s')
    ensures Frozen(s', a)
  {
    if s.writers[w].agg == a {
      assert LateWriter(s.writers[w], |Stream(s.world.events, a)|);
    }
  }

  lemma FrozenSnapshot(
      cfg: Config<Product, ProductView>, s: System<Product, ProductView>, w: nat, b: AggId,
      s': System<Product, ProductView>, a: AggId)
    requires LossyProducts(cfg) && ProductInv(cfg, s) && Frozen(s, a)
    requires TakeWriter(cfg, s, w, QuerySnapshot(b)) == Some(s')
    ensures Frozen(s', a)
  {
    SnapshotRead(cfg, s, b);
  }

  lemma FrozenWriterStep(
      cfg: Config<Product, ProductView>, s: System<Product, ProductView>, w: nat, step: WriterStep,
      s': System<Product, ProductView>, a: AggId)
    requires LossyProducts(cfg) && ProductInv(cfg, s) && a != NIL_ID && Frozen(s, a)
    requires TakeWriter(cfg, s, w, step) == Some(s')
    ensures Frozen(s', a) && Stream(s'.world.events, a) == Stream(s.world.events, a)
  {
    LossyIsReplayable(cfg);
    match step
    case BeginCreate(b) =>
    case QuerySnapshot(b) => FrozenSnapshot(cfg, s, w, b, s', a);
    case QueryTail => FrozenTail(cfg, s, w, s', a);
    case TrackEvent(e) => FrozenTrack(cfg, s, w, e, s', a);
    case CommitSave(withSnapshot) => SaveElsewhere(cfg, s, w, withSnapshot, s', a);
    case Abandon =>
  }

  lemma FrozenStep(
      cfg: Config<Product, ProductView>, s: System<Product, ProductView>, step: Step, s': System<Product, ProductView>,
      a: AggId)
    requires LossyProducts(cfg) && ProductInv(cfg, s) && a != NIL_ID && Frozen(s, a) && Take(cfg, s, step) == Some(s')
    ensures Frozen(s', a) && Stream(s'.world.events, a) == Stream(s.world.events, a)
  {
    match step
    case ByWriter(w, action) => FrozenWriterStep(cfg, s, w, action, s', a);
    case ByRelay(r, move) => RelayKeepsWriteSide(cfg, s, r, move, s');
    case ByWorker(p, act) => WorkerKeepsWriteSide(cfg, s, p, act, s');
  }

  lemma {:induction false} FrozenForever(
      cfg: Config<Product, ProductView>, s: System<Product, ProductView>, run: seq<Step>,
      s': System<Product, ProductView>, a: AggId)
    requires LossyProducts(cfg) && ProductInv(cfg, s) && a != NIL_ID && Frozen(s, a) && After(cfg, s, run) == Some(s')
    ensures Stream(s'.world.events, a) == Stream(s.world.events, a)
    decreases |run|
  {
    if run != [] {
      var mid := Take(cfg, s, run[0]).value;
      StepKeepsShowing(cfg, s, run[0], mid);
      FrozenStep(cfg, s, run[0], mid, a);
      FrozenForever(cfg, mid, run[1..], s', a);
    }
  }

  // ----- The save that takes a snapshot -----

  /** Writer w saves a product under its own id and takes a snapshot of it. */
  ghost predicate TakesSnapshot(
      cfg: Config<Product, ProductView>, s: System<Product, ProductView>, w: nat, s': System<Product, ProductView>) {
    && TakeWriter(cfg, s, w, CommitSave(true)) == Some(s')
    && s.writers[w].agg != NIL_ID && s.writers[w].core.id == s.writers[w].agg
    && SnapshotOf(cfg.spec, cfg.frequency, s.writers[w].core).Some?
  }

  /** Somebody is between the two queries of a load of `a`. */
  ghost predicate BeingLoaded(s: System<Product, ProductView>, a: AggId) {
    exists x :: x in s.writers && s.writers[x].agg == a && s.writers[x].Loading?
  }

  lemma NewestWins(rows: seq<SnapshotRow>, row: SnapshotRow)
    requires forall r :: r in rows && r.aggId == row.aggId ==> r.version < row.version
    ensures LatestSnapshot(InsertSnapshot(rows, Some(row)), row.aggId) == Some(row)
  {
    assert (rows + [row])[..|rows|] == rows;
  }

  lemma FreezesAtOnce(
      cfg: Config<Product, ProductView>, s: System<Product, ProductView>, w: nat, s': System<Product, ProductView>)
    requires LossyProducts(cfg) && ProductInv(cfg, s) && TakesSnapshot(cfg, s, w, s')
    requires !BeingLoaded(s', s.writers[w].agg)
    ensures Frozen(s', s.writers[w].agg)
  {
    LossyIsReplayable(cfg);
    var Loaded(a, known, core, es) := s.writers[w];
    SavedStream(cfg, s, w, true, s');
    forall r | r in s.world.snapshots && r.aggId == a
      ensures r.version < core.version
    {
      assert SnapshotShows(cfg, s.world.events, r);
    }
    NewestWins(s.world.snapshots, SnapshotOf(cfg.spec, cfg.frequency, core).value);
    forall x | x in s'.writers && s'.writers[x].agg == a
      ensures LateWriter(s'.writers[x], core.version)
    {
      assert s'.writers[x].Loaded? && WriterOk(cfg, s.world, s.writers[x]);
    }
  }

  lemma {:induction false} FreshId(events: seq<Event>) returns (id: EventId)
    ensures forall x :: x in events ==> x.id < id
  {
    if events == [] {
      id := 0;
    } else {
      var init, last := events[..|events| - 1], events[|events| - 1];
      assert events == init + [last];
      id := FreshId(init);
      if id <= last.id {
        id := last.id + 1;
      }
    }
  }

  /** A load that was between its queries finds the events before the snapshot, and so
      the right version: its command can still update the product. */
  lemma LoadBehindExtends(
      cfg: Config<Product, ProductView>, s: System<Product, ProductView>, x: nat)
      returns (run: seq<Step>, s': System<Product, ProductView>)
    requires LossyProducts(cfg) && ProductInv(cfg, s) && x in s.writers && s.writers[x].Loading?
    requires s.writers[x].agg != NIL_ID && s.writers[x].from < |Stream(s.world.events, s.writers[x].agg)|
    ensures After(cfg, s, run) == Some(s')
    ensures |Stream(s'.world.events, s.writers[x].agg)| == |Stream(s.world.events, s.writers[x].agg)| + 1
  {
    LossyIsReplayable(cfg);
    AllRegistered(cfg, s.world.events);
    var d := s.world;
    var Loading(a, known, from, start) := s.writers[x];
    assert WriterOk(cfg, d, s.writers[x]) && WriterShows(d.events, s.writers[x]);
    StreamMembers(d.events, a);
    LossyTail(cfg.spec, d.events, a, from, start);
    var core := ReplayFrom(cfg.spec, start, RowsAfter(d.events, a, from)).core;
    var loaded := s.(writers := s.writers[x := Loaded(a, known, core, [])]);
    run := [] + [ByWriter(x, QueryTail)];
    Extend(cfg, s, [], s, ByWriter(x, QueryTail), loaded);
    LoadIsReplay(cfg, d, a, known, from, start);
    run, s' := UpdateExtends(cfg, s, run, x, a, known, core);
  }

  lemma UpdateExtends(
      cfg: Config<Product, ProductView>, s: System<Product, ProductView>, run: seq<Step>, x: nat, a: AggId, known: bool,
      core: Core<Product>)
      returns (run': seq<Step>, s': System<Product, ProductView>)
    requires LossyProducts(cfg) && Inv(cfg, s.world) && TrackedOn(cfg, s.world.events, a, known, core, [])
    requires core.version == |Stream(s.world.events, a)| != 0
    requires After(cfg, s, run) == Some(s.(writers := s.writers[x := Loaded(a, known, core, [])]))
    ensures After(cfg, s, run') == Some(s')
    ensures |Stream(s'.world.events, a)| == |Stream(s.world.events, a)| + 1
  {
    LossyIsReplayable(cfg);
    var id := FreshId(s.world.events);
    var e := Event(id, a, PRODUCT_TYPE, ProductUpdated("tea", 1.0), core.version + 1, 0);
    var core' := Track(cfg.spec, core, e).0;
    var loaded := s.(writers := s.writers[x := Loaded(a, known, core, [])]);
    var tracked := s.(writers := s.writers[x := Loaded(a, known, core', [e])]);
    TrackKeepsTracked(cfg, s.world.events, a, known, core, [], e);
    assert [] + [e] == [e];
    TrackOne(cfg, s, x, a, known, core, e);
    Extend(cfg, s, run, loaded, ByWriter(x, TrackEvent(e)), tracked);
    s' := SaveOne(cfg, tracked, x, a, known, core', e);
    Extend(cfg, s, run + [ByWriter(x, TrackEvent(e))], tracked, ByWriter(x, CommitSave(true)), s');
    run' := run + [ByWriter(x, TrackEvent(e))] + [ByWriter(x, CommitSave(true))];
  }

  lemma TrackOne(
      cfg: Config<Product, ProductView>, s: System<Product, ProductView>, x: nat, a: AggId, known: bool,
      core: Core<Product>, e: Event)
    requires LossyProducts(cfg) && e.aggId == a && e.aggType == PRODUCT_TYPE && e.version == core.version + 1
    requires e.body == ProductUpdated("tea", 1.0) && (known || core.version != 0)
    ensures Take(cfg, s.(writers := s.writers[x := Loaded(a, known, core, [])]), ByWriter(x, TrackEvent(e))) ==
      Some(s.(writers := s.writers[x := Loaded(a, known, Track(cfg.spec, core, e).0, [e])]))
  {
    assert [] + [e] == [e];
    var last := Loaded(a, known, Track(cfg.spec, core, e).0, [e]);
    assert s.writers[x := Loaded(a, known, core, [])][x := last] == s.writers[x := last];
  }

  /** The save of one new event at the end of its stream takes effect. */
  lemma SaveOne(
      cfg: Config<Product, ProductView>, s: System<Product, ProductView>, x: nat, a: AggId, known: bool,
      core: Core<Product>, e: Event)
      returns (s': System<Product, ProductView>)
    requires Replayable(cfg) && Inv(cfg, s.world) && TrackedOn(cfg, s.world.events, a, known, core, [e])
    requires core.version == |Stream(s.world.events, a)| + 1 && e.aggId == a
    requires forall x :: x in s.world.events ==> x.id != e.id
    requires x in s.writers && s.writers[x] == Loaded(a, known, core, [e])
    ensures Take(cfg, s, ByWriter(x, CommitSave(true))) == Some(s')
    ensures |Stream(s'.world.events, a)| == |Stream(s.world.events, a)| + 1
  {
    var d := s.world;
    UniqueAppend(d.events, e);
    CommitsIffCurrent(cfg, d, a, known, core, [e], Snapshot(cfg, core, true));
    var w: Writes<ProductView> := SaveWrites([e], Snapshot(cfg, core, true));
    s' := s.(world := Merge(d, w), writers := s.writers - {x});
    StreamGrows(d.events, [e], a, a);
  }

  lemma StillLoadedBehind(
      cfg: Config<Product, ProductView>, s: System<Product, ProductView>, w: nat, s': System<Product, ProductView>,
      x: nat)
    requires LossyProducts(cfg) && ProductInv(cfg, s) && TakesSnapshot(cfg, s, w, s')
    requires x in s'.writers && s'.writers[x].agg == s.writers[w].agg && s'.writers[x].Loading?
    ensures s'.writers[x].from < |Stream(s'.world.events, s.writers[w].agg)|
  {
    SavedStream(cfg, s, w, true, s');
    assert WriterShows(s.world.events, s.writers[x]);
  }

  /** Is the save that takes a snapshot of a product the last one of its stream?  It
      is, whatever runs afterwards with any number of commands, if and only if nobody
      is just between the two queries of loading that product. */
  lemma SnapshotFreezesIff(
      cfg: Config<Product, ProductView>, s: System<Product, ProductView>, w: nat, s': System<Product, ProductView>)
    requires LossyProducts(cfg) && Reachable(cfg, s) && TakesSnapshot(cfg, s, w, s')
    ensures (forall run, s'' :: After(cfg, s', run) == Some(s'') ==>
        Stream(s''.world.events, s.writers[w].agg) == Stream(s'.world.events, s.writers[w].agg))
      <==> !BeingLoaded(s', s.writers[w].agg)
  {
    var a := s.writers[w].agg;
    ReachableShows(cfg, s);
    StepKeepsShowing(cfg, s, ByWriter(w, CommitSave(true)), s');
    if BeingLoaded(s', a) {
      var x :| x in s'.writers && s'.writers[x].agg == a && s'.writers[x].Loading?;
      StillLoadedBehind(cfg, s, w, s', x);
      var run, s'' := LoadBehindExtends(cfg, s', x);
    } else {
      FreezesAtOnce(cfg, s, w, s');
      forall run, s'' | After(cfg, s', run) == Some(s'')
        ensures Stream(s''.world.events, a) == Stream(s'.world.events, a)
      {
        FrozenForever(cfg, s', run, s'', a);
      }
    }
  }
}
