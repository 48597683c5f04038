/** The sample domain: the product aggregate, its projection, and how the two
    agree (sample/domain, sample/query). */
module Product {
  import opened Events
  import opened Aggregates
  import opened World
  import opened Machine
  import opened Contents
  import opened Overwriting
  import opened Safety

  const PRODUCT_TYPE := "products"

  datatype Product = Product(name: string, price: real)

  datatype ProductView = ProductView(name: string, price: real, createdAt: int, updatedAt: int)

  /** ProductAggregate.Apply: only a ProductCreated names the aggregate. */
  function ApplyProduct(c: Core<Product>, e: Event): Applied<Product> {
    match e.body
    case ProductCreated(name, price) => Applied(Core(e.aggId, e.version, Product(name, price)), true)
    case ProductUpdated(name, price) => Applied(Core(c.id, e.version, Product(name, price)), true)
    case Unregistered(_) => Applied(c, false)
  }

  predicate Sellable(p: Product) {
    p.name != "" && p.price > 0.0
  }

  predicate ValidProduct(c: Core<Product>) {
    Sellable(c.state)
  }

  /** The product that an accepted event leaves. */
  function StateOf(e: Event): Product {
    match e.body
    case ProductCreated(name, price) => Product(name, price)
    case ProductUpdated(name, price) => Product(name, price)
    case Unregistered(_) => Product("", 0.0)
  }

  function ProductSpec(
      marshal: Core<Product> -> Option<string>, unmarshal: string -> Option<Core<Product>>): AggregateSpec<Product> {
    AggregateSpec(PRODUCT_TYPE, Product("", 0.0), ApplyProduct, ValidProduct, marshal, unmarshal)
  }

  /** The projection on one view row: a created product is upserted, keeping the
      creation time of a row already there; an update without a row hits nothing. */
  function ProjectProduct(row: Option<Row<ProductView>>, e: Event): Option<Row<ProductView>> {
    match e.body
    case ProductCreated(name, price) =>
      Some(Row(e.version, ProductView(name, price, if row.Some? then row.value.content.createdAt else e.ts, e.ts)))
    case ProductUpdated(name, price) =>
      if row.None? then None else Some(Row(e.version, ProductView(name, price, row.value.content.createdAt, e.ts)))
    case Unregistered(_) => row
  }

  /** What the two command handlers track: ProductCreated on a new aggregate,
      ProductUpdated on whatever Load returns. */
  predicate HandlersTrack(known: bool, c: Core<Product>, e: Event) {
    Registered(e) && (e.body.ProductCreated? ==> c == Core(NIL_ID, 0, Product("", 0.0)))
  }

  /** The same, but updates are only sent for products known to exist. */
  predicate CreatedFirst(known: bool, c: Core<Product>, e: Event) {
    HandlersTrack(known, c, e) && (!known && c.version == 0 ==> e.body.ProductCreated?)
  }

  ghost predicate IsProductConfig(cfg: Config<Product, ProductView>) {
    && cfg.spec == ProductSpec(cfg.spec.marshal, cfg.spec.unmarshal)
    && forall sub :: sub in cfg.subs ==> cfg.subs[sub].handle == ProjectProduct
  }

  /** Products with one of the two disciplines, whatever their snapshots and
      projections. */
  ghost predicate HandledProducts(cfg: Config<Product, ProductView>) {
    IsProductConfig(cfg) && (cfg.allowed == HandlersTrack || cfg.allowed == CreatedFirst)
  }

  // ----- The write side, for every snapshot codec and every projection -----

  lemma TrackedProduct(cfg: Config<Product, ProductView>, e: Event)
    requires HandledProducts(cfg) && Tracked(cfg, e)
    ensures Registered(e) && e.body.name != "" && e.body.price > 0.0 && (e.body.ProductCreated? ==> e.version == 1)
  {
    var known :| TrackedBy(cfg, known, e);
    var c :| cfg.allowed(known, c, e) && e.version == c.version + 1 && Track(cfg.spec, c, e).1.Nil?;
    assert HandlersTrack(known, c, e);
  }

  /** Replaying registered product events ends in the product of the last one, with
      its version, and keeps the id unless a creation names it. */
  lemma {:induction false} ReplayProducts(spec: AggregateSpec<Product>, c: Core<Product>, es: seq<Event>, a: AggId)
    requires spec == ProductSpec(spec.marshal, spec.unmarshal)
    requires forall e :: e in es ==> Registered(e) && e.aggId == a
    ensures var r := ReplayFrom(spec, c, es);
      && r.ok && (r.core.id == c.id || r.core.id == a)
      && (es == [] ==> r.core == c)
      && (es != [] ==> r.core.state == StateOf(es[|es| - 1]) && r.core.version == es[|es| - 1].version)
    decreases |es|
  {
    if es != [] {
      ReplayProducts(spec, spec.apply(c, es[0]).core, es[1..], a);
    }
  }

  /** Every non-empty committed prefix replays to a valid product, although replaying
      never validates: it has a name and a positive price, those of its last event. */
  lemma ProductHistoryIsValid(cfg: Config<Product, ProductView>, s: System<Product, ProductView>, a: AggId, k: nat)
    requires HandledProducts(cfg) && Reachable(cfg, s) && 1 <= k <= |Stream(s.world.events, a)|
    ensures var r, last := Replay(cfg.spec, Stream(s.world.events, a)[..k]), Stream(s.world.events, a)[k - 1];
      && r.ok && r.core.state.name != "" && r.core.state.price > 0.0
      && Registered(last) && r.core.state == Product(last.body.name, last.body.price)
      && r.core.version == last.version
  {
    var es := Stream(s.world.events, a)[..k];
    StreamOfProducts(cfg, s, a);
    assert forall e :: e in es ==> e in Stream(s.world.events, a);
    ReplayProducts(cfg.spec, EmptyCore(cfg.spec), es, a);
    assert es[|es| - 1] in es;
  }

  lemma StreamOfProducts(cfg: Config<Product, ProductView>, s: System<Product, ProductView>, a: AggId)
    requires HandledProducts(cfg) && Reachable(cfg, s)
    ensures forall e :: e in Stream(s.world.events, a) ==>
      Registered(e) && e.aggId == a && e.body.name != "" && e.body.price > 0.0
  {
    ReachableInv(cfg, s);
    StreamMembers(s.world.events, a);
    forall e | e in Stream(s.world.events, a)
      ensures Registered(e) && e.body.name != "" && e.body.price > 0.0
    {
      TrackedProduct(cfg, e);
    }
  }

  predicate SellableView(v: ProductView) {
    v.name != "" && v.price > 0.0
  }

  /** In every reachable state every event in the log, and every view of every
      projection, has a name and a positive price: whatever the snapshots are like, and
      whichever way the projections write. */
  lemma NothingWorthless(cfg: Config<Product, ProductView>, s: System<Product, ProductView>)
    requires HandledProducts(cfg) && Reachable(cfg, s)
    ensures forall e :: e in s.world.events ==> Registered(e) && e.body.name != "" && e.body.price > 0.0
    ensures forall sub, a :: ViewRow(s.world, sub, a).Some? ==>
      var row := ViewRow(s.world, sub, a).value;
      row.content.name != "" && row.content.price > 0.0
  {
    ReachableInv(cfg, s);
    forall e | e in s.world.events
      ensures Registered(e) && e.body.name != "" && e.body.price > 0.0
    {
      TrackedProduct(cfg, e);
    }
    forall sub, row: Option<Row<ProductView>>, e {:trigger cfg.subs[sub].handle(row, e)} |
      sub in cfg.subs && GoodRow(row, SellableView) && Tracked(cfg, e)
      ensures GoodRow(cfg.subs[sub].handle(row, e), SellableView)
    {
      TrackedProduct(cfg, e);
    }
    ViewsAreGood(cfg, s, SellableView);
    forall sub, a | ViewRow(s.world, sub, a).Some?
      ensures SellableView(ViewRow(s.world, sub, a).value.content)
    {
      assert GoodRow(ViewRow(s.world, sub, a), SellableView);
    }
  }

  /** The two handlers put ProductCreated only at version 1, and exactly there if
      updates are only sent for existing products. */
  lemma CreatedOnlyAtVersionOne(cfg: Config<Product, ProductView>, s: System<Product, ProductView>, e: Event)
    requires HandledProducts(cfg) && Reachable(cfg, s) && e in s.world.events
    ensures Registered(e) && (e.body.ProductCreated? ==> e.version == 1)
    ensures Replayable(cfg) && cfg.allowed == CreatedFirst ==> (e.body.ProductCreated? <==> e.version == 1)
  {
    ReachableInv(cfg, s);
    TrackedProduct(cfg, e);
    if Replayable(cfg) && cfg.allowed == CreatedFirst {
      assert Trackable(cfg, e);
      var known :| TrackedBy(cfg, known, e) && (e.version == 1 ==> !known);
      var c :| cfg.allowed(known, c, e) && e.version == c.version + 1 && Track(cfg.spec, c, e).1.Nil?;
    }
  }

  /** Products are replayable with snapshots that forget the version, as those of the
      sample do; with lossless ones if updates are only sent for existing products. */
  lemma ProductsAreReplayable(cfg: Config<Product, ProductView>)
    requires HandledProducts(cfg)
    requires ForgetsVersion(cfg.spec) || (Lossless(cfg.spec) && cfg.allowed == CreatedFirst)
    ensures Replayable(cfg)
    ensures Lossless(cfg.spec) && cfg.allowed == CreatedFirst ==> Faithful(cfg)
  {
    assert EmptyCore(cfg.spec).version == 0;
  }

  // ----- Write model and read model agree -----

  /** The view shows what the aggregate is: row, version, name, price, times. */
  ghost predicate Shows(spec: AggregateSpec<Product>, sub: Subscription<ProductView>, es: seq<Event>)
    requires es != []
  {
    var p := Replay(spec, es).core;
    && p.version == |es|
    && ViewFold(sub, es) == Some(Row(|es|, ProductView(p.state.name, p.state.price, es[0].ts, es[|es| - 1].ts)))
  }

  lemma {:induction false} NoCreationNoView(sub: Subscription<ProductView>, es: seq<Event>)
    requires sub.handle == ProjectProduct && forall e :: e in es ==> !e.body.ProductCreated?
    ensures ViewFold(sub, es) == None
    decreases |es|
  {
    if es != [] {
      NoCreationNoView(sub, es[..|es| - 1]);
    }
  }

  /** The view of a stream shows the aggregate that the stream replays to, made at
      the time of its first event and changed at the time of its last. */
  lemma {:induction false} ViewShowsAggregate(
      spec: AggregateSpec<Product>, sub: Subscription<ProductView>, es: seq<Event>, a: AggId)
    requires spec == ProductSpec(spec.marshal, spec.unmarshal) && sub.handle == ProjectProduct
    requires es != [] && es[0].body.ProductCreated? && Chain(es, a, 0) && forall e :: e in es ==> Registered(e)
    ensures var r := Replay(spec, es);
      && r.ok && r.core.id == a && r.core.version == |es|
      && Shows(spec, sub, es)
    decreases |es|
  {
    var init, last := es[..|es| - 1], es[|es| - 1];
    assert es == init + [last];
    assert last == es[|es| - 1] && last in es && last.aggId == a && last.version == |es|;
    ReplayConcat(spec, EmptyCore(spec), init, [last]);
    if init == [] {
      assert ViewFold(sub, init) == None;
      ReplayOne(spec, EmptyCore(spec), last);
    } else {
      ViewShowsAggregate(spec, sub, init, a);
      ReplayOne(spec, Replay(spec, init).core, last);
    }
  }

  lemma ReplayOne(spec: AggregateSpec<Product>, c: Core<Product>, e: Event)
    ensures ReplayFrom(spec, c, [e]) == spec.apply(c, e)
  {
    assert [e][1..] == [];
  }

  /** What the two command handlers can put into a stream. */
  ghost predicate IsProductStream(es: seq<Event>, a: AggId) {
    Chain(es, a, 0) && forall e :: e in es ==> Registered(e) && (e.body.ProductCreated? ==> e.version == 1)
  }

  lemma ReachableStream(cfg: Config<Product, ProductView>, s: System<Product, ProductView>, a: AggId)
    requires HandledProducts(cfg) && Replayable(cfg) && Reachable(cfg, s)
    ensures IsProductStream(Stream(s.world.events, a), a)
  {
    ReachableInv(cfg, s);
    var es := Stream(s.world.events, a);
    StreamMembers(s.world.events, a);
    forall e | e in es
      ensures Registered(e) && (e.body.ProductCreated? ==> e.version == 1)
    {
      TrackedProduct(cfg, e);
    }
    forall j | 0 <= j < |es|
      ensures es[j].aggId == a && es[j].version == j + 1
    {
      assert es[j] in es;
    }
  }

  /** The projection follows a stream if and only if it is empty or begins with a
      creation, and then the view shows the aggregate after every event of it. */
  lemma FollowsIffCreatedFirst(
      spec: AggregateSpec<Product>, sub: Subscription<ProductView>, es: seq<Event>, a: AggId)
    requires spec == ProductSpec(spec.marshal, spec.unmarshal) && sub.handle == ProjectProduct && IsProductStream(es, a)
    ensures Follows(sub, es) <==> es == [] || es[0].body.ProductCreated?
    ensures es != [] && es[0].body.ProductCreated? ==> forall k :: 1 <= k <= |es| ==> Shows(spec, sub, es[..k])
    ensures es != [] && !es[0].body.ProductCreated? ==> ViewFold(sub, es) == None
  {
    if es == [] {
    } else if es[0].body.ProductCreated? {
      forall k | 1 <= k <= |es|
        ensures Shows(spec, sub, es[..k])
      {
        assert forall e :: e in es[..k] ==> e in es;
        ViewShowsAggregate(spec, sub, es[..k], a);
      }
    } else {
      assert forall j :: 0 <= j < |es| ==> es[j] in es;
      NoCreationNoView(sub, es);
      assert es[..|es|] == es;
    }
  }

  /** In every reachable state: read side and write side agree on a stream, once it is
      projected completely, if and only if it begins with a creation; otherwise it has
      no view at all. */
  lemma ShowsIffCreatedFirst(
      cfg: Config<Product, ProductView>, s: System<Product, ProductView>, sub: SubId, a: AggId)
    requires HandledProducts(cfg) && Replayable(cfg) && Reachable(cfg, s) && sub in cfg.subs
    requires Stream(s.world.events, a) != []
    ensures var stream := Stream(s.world.events, a);
      && (Shows(cfg.spec, cfg.subs[sub], stream) <==> stream[0].body.ProductCreated?)
      && (!stream[0].body.ProductCreated? ==> ViewFold(cfg.subs[sub], stream) == None)
      && (Follows(cfg.subs[sub], stream) <==> stream[0].body.ProductCreated?)
  {
    ReachableStream(cfg, s, a);
    var es := Stream(s.world.events, a);
    FollowsIffCreatedFirst(cfg.spec, cfg.subs[sub], es, a);
    assert es[..|es|] == es;
  }

  /** The row that the projection has made of a stream that begins with a creation. */
  lemma {:induction false} FoldedRow(sub: Subscription<ProductView>, es: seq<Event>, a: AggId)
    requires sub.handle == ProjectProduct && IsProductStream(es, a) && es != [] && es[0].body.ProductCreated?
    ensures var last := es[|es| - 1];
      ViewFold(sub, es) ==
        Some(Row(|es|, ProductView(StateOf(last).name, StateOf(last).price, es[0].ts, last.ts)))
    decreases |es|
  {
    var init, last := es[..|es| - 1], es[|es| - 1];
    assert last in es;
    if init == [] {
      assert ViewFold(sub, init) == None;
    } else {
      assert forall e :: e in init ==> e in es;
      FoldedRow(sub, init, a);
    }
  }

  /** Created and updated products are overwritten as a whole, but for the time of their
      creation, which every write keeps. */
  lemma ProductsRebuild(sub: Subscription<ProductView>, es: seq<Event>, a: AggId)
    requires sub.handle == ProjectProduct && IsProductStream(es, a) && es != [] && es[0].body.ProductCreated?
    ensures Rebuilds(sub, es)
  {
    forall j, k | 0 <= j <= |es| && 0 <= k < |es| && (j > 0 || k == 0)
      ensures sub.handle(ViewFold(sub, es[..j]), es[k]) == ViewFold(sub, es[..k + 1])
    {
      assert es[k] in es && forall e :: e in es[..k + 1] ==> e in es;
      FoldedRow(sub, es[..k + 1], a);
      if j > 0 {
        assert forall e :: e in es[..j] ==> e in es;
        FoldedRow(sub, es[..j], a);
      }
    }
  }

  /** In every reachable state the projection rebuilds a product that was created. */
  lemma ProductIsRebuilding(
      cfg: Config<Product, ProductView>, s: System<Product, ProductView>, sub: SubId, a: AggId)
    requires HandledProducts(cfg) && Replayable(cfg) && Reachable(cfg, s) && sub in cfg.subs
    requires Stream(s.world.events, a) != [] && Stream(s.world.events, a)[0].body.ProductCreated?
    ensures Rebuilding(cfg, s.world, sub, a)
  {
    ReachableStream(cfg, s, a);
    FollowsIffCreatedFirst(cfg.spec, cfg.subs[sub], Stream(s.world.events, a), a);
    ProductsRebuild(cfg.subs[sub], Stream(s.world.events, a), a);
  }

  /** End to end: in every reachable state of commands, relays, broker and projection
      workers, whichever way the projection writes and whether or not it hides failures,
      a product view at version k shows name and price of the aggregate after its first k
      events, and their times; without a creation there is none. */
  lemma ViewsShowProducts(
      cfg: Config<Product, ProductView>, s: System<Product, ProductView>, sub: SubId, a: AggId)
    requires HandledProducts(cfg) && Replayable(cfg) && Reachable(cfg, s) && sub in cfg.subs
    ensures var k, stream := ViewVersion(s.world, sub, a), Stream(s.world.events, a);
      && 0 <= k <= |stream|
      && ViewRow(s.world, sub, a) == ViewFold(cfg.subs[sub], stream[..k])
      && (k != 0 ==> stream[0].body.ProductCreated? && Shows(cfg.spec, cfg.subs[sub], stream[..k]))
  {
    var es := Stream(s.world.events, a);
    ReachableStream(cfg, s, a);
    FollowsIffCreatedFirst(cfg.spec, cfg.subs[sub], es, a);
    if es == [] || !es[0].body.ProductCreated? {
      NoCreationLeavesNothing(cfg.subs[sub], es, a);
      NeverAView(cfg, s, sub, a);
    } else if cfg.pooled {
      ProductIsRebuilding(cfg, s, sub, a);
      PooledPrefixConsistency(cfg, s, sub, a);
    } else {
      PrefixConsistency(cfg, s, sub, a);
    }
  }

  lemma NoCreationLeavesNothing(sub: Subscription<ProductView>, es: seq<Event>, a: AggId)
    requires sub.handle == ProjectProduct && IsProductStream(es, a) && (es == [] || !es[0].body.ProductCreated?)
    ensures LeavesNothing(sub, es)
  {
    forall e | e in es
      ensures sub.handle(None, e) == None
    {
      var j :| 0 <= j < |es| && es[j] == e;
    }
  }

  /** With creation first the projection rebuilds every product. */
  lemma CreatedFirstRebuilds(
      cfg: Config<Product, ProductView>, s: System<Product, ProductView>, sub: SubId, a: AggId)
    requires IsProductConfig(cfg) && cfg.allowed == CreatedFirst && Replayable(cfg)
    requires Reachable(cfg, s) && sub in cfg.subs
    ensures Rebuilding(cfg, s.world, sub, a)
  {
    var es := Stream(s.world.events, a);
    if es != [] {
      ReachableStream(cfg, s, a);
      StreamMembers(s.world.events, a);
      assert es[0] in es;
      CreatedOnlyAtVersionOne(cfg, s, es[0]);
      ProductIsRebuilding(cfg, s, sub, a);
    }
  }
}
