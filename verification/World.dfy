/** The state all processes share, and what may never be broken in it.

    `World` holds the tables of infra/postgres/schema.sql, the read views, the
    row locks of FOR UPDATE, the broker's stream with its acknowledgements, and
    a history of the committed handler applications.  A transaction is a
    `Writes` record that takes effect at once, by `Merge`, if the unique
    constraints admit it. */
module World {
  import opened Events
  import opened Aggregates

  /** Whoever runs a transaction or holds row locks. */
  type Session = nat

  datatype OutboxRow = OutboxRow(evt: Event, published: bool)

  datatype SnapshotRow = SnapshotRow(aggId: AggId, version: int, payload: string)

  /** A row of a read view; its version is what GetVersion reads. */
  datatype Row<+V> = Row(version: int, content: V)

  /** A committed run of a subscriber's handler. */
  datatype Application = Application(sub: SubId, evt: Event)

  datatype World<+V> = World(
    events: seq<Event>,
    outbox: seq<OutboxRow>,
    snapshots: seq<SnapshotRow>,
    processed: set<(EventId, SubId)>,
    views: map<(SubId, AggId), Row<V>>,
    locks: map<EventId, Session>,
    messages: seq<Event>,
    acked: set<(nat, SubId)>,
    applied: seq<Application>)

  /** `handle` maps the row a handler finds to the row it leaves. */
  datatype Subscription<!V(!new)> = Subscription(topic: string, handle: (Option<Row<V>>, Event) -> Option<Row<V>>)

  /** `allowed` is the discipline of the command handlers: which event they
      track on which aggregate, given whether the stream was known to exist when
      the command began.  `pooled` says that projection handlers write through the
      connection pool instead of the transaction, `hides` that they may return nil
      although their write failed.  A transaction with a failed write is poisoned, so
      only a pooled handler can have the event marked all the same. */
  datatype Config<!S(!new), !V(!new)> = Config(
    spec: AggregateSpec<S>,
    allowed: (bool, Core<S>, Event) -> bool,
    frequency: int,
    subs: map<SubId, Subscription<V>>,
    batchSize: nat,
    pooled: bool,
    hides: bool)

  function InitialWorld<V>(): World<V> {
    World([], [], [], {}, map[], map[], [], {}, [])
  }

  // ----- Reading the tables -----

  function VersionOf<V>(row: Option<Row<V>>): int {
    if row.Some? then row.value.version else 0
  }

  function ViewRow<V>(d: World<V>, sub: SubId, a: AggId): Option<Row<V>> {
    if (sub, a) in d.views then Some(d.views[(sub, a)]) else None
  }

  /** GetVersion: 0 when the view does not exist yet. */
  function ViewVersion<V>(d: World<V>, sub: SubId, a: AggId): int {
    VersionOf(ViewRow(d, sub, a))
  }

  function OutboxEvents(rows: seq<OutboxRow>): (es: seq<Event>)
    ensures |es| == |rows| && forall i :: 0 <= i < |rows| ==> es[i] == rows[i].evt
  {
    seq(|rows|, i requires 0 <= i < |rows| => rows[i].evt)
  }

  /** The newest snapshot of `a`: ORDER BY aggregate_version DESC LIMIT 1. */
  function LatestSnapshot(rows: seq<SnapshotRow>, a: AggId): (r: Option<SnapshotRow>)
    ensures r.None? ==> forall row :: row in rows ==> row.aggId != a
    ensures r.Some? ==> r.value in rows && r.value.aggId == a
    ensures r.Some? ==> forall row :: row in rows && row.aggId == a ==> row.version <= r.value.version
  {
    if rows == [] then None
    else
      var before := LatestSnapshot(rows[..|rows| - 1], a);
      var last := rows[|rows| - 1];
      assert rows == rows[..|rows| - 1] + [last];
      if last.aggId == a && (before.None? || before.value.version < last.version) then Some(last) else before
  }

  /** The read model of a stream: its handler folded over the events. */
  function ViewFold<V(!new)>(sub: Subscription<V>, es: seq<Event>): Option<Row<V>> {
    if es == [] then None
    else sub.handle(ViewFold(sub, es[..|es| - 1]), es[|es| - 1])
  }

  /** Along this stream the handler leaves the version of each event on the row that
      the events before it have made (cqrs/projection.go:25-30, 129-131). */
  ghost predicate Follows<V(!new)>(sub: Subscription<V>, es: seq<Event>) {
    forall k :: 1 <= k <= |es| ==> VersionOf(ViewFold(sub, es[..k])) == k
  }

  /** The events a subscriber has applied to one aggregate, in commit order. */
  function AppliedTo(history: seq<Application>, sub: SubId, a: AggId): seq<Event> {
    if history == [] then []
    else
      var before := AppliedTo(history[..|history| - 1], sub, a);
      var last := history[|history| - 1];
      if last.sub == sub && last.evt.aggId == a then before + [last.evt] else before
  }

  // ----- Transactions -----

  datatype ViewWrite<+V> = ViewWrite(sub: SubId, evt: Event, row: Option<Row<V>>)

  /** The uncommitted writes of one transaction. */
  datatype Writes<+V> = Writes(
    events: seq<Event>,
    outbox: seq<Event>,
    snapshot: Option<SnapshotRow>,
    marks: set<(EventId, SubId)>,
    view: Option<ViewWrite<V>>,
    published: set<EventId>)

  function NoWrites<V>(): Writes<V> {
    Writes([], [], None, {}, None, {})
  }

  /** The primary keys and unique constraints of the schema. */
  predicate Admits<V>(d: World<V>, w: Writes<V>) {
    && UniqueIds(d.events + w.events)
    && UniqueVersions(d.events + w.events)
    && UniqueIds(OutboxEvents(d.outbox) + w.outbox)
    && w.marks !! d.processed
  }

  /** INSERT ... ON CONFLICT (aggregate_id, aggregate_version) DO NOTHING */
  function InsertSnapshot(rows: seq<SnapshotRow>, row: Option<SnapshotRow>): seq<SnapshotRow> {
    if row.None? || exists r :: r in rows && r.aggId == row.value.aggId && r.version == row.value.version then rows
    else rows + [row.value]
  }

  function NewRows(es: seq<Event>): (rows: seq<OutboxRow>)
    ensures |rows| == |es| && forall i :: 0 <= i < |es| ==> rows[i] == OutboxRow(es[i], false)
  {
    seq(|es|, i requires 0 <= i < |es| => OutboxRow(es[i], false))
  }

  function Publish(rows: seq<OutboxRow>, ids: set<EventId>): (rows': seq<OutboxRow>)
    ensures |rows'| == |rows|
    ensures forall i :: 0 <= i < |rows| ==>
      rows'[i] == OutboxRow(rows[i].evt, rows[i].published || rows[i].evt.id in ids)
  {
    seq(|rows|, i requires 0 <= i < |rows| => OutboxRow(rows[i].evt, rows[i].published || rows[i].evt.id in ids))
  }

  function PutView<V>(views: map<(SubId, AggId), Row<V>>, w: ViewWrite<V>): map<(SubId, AggId), Row<V>> {
    if w.row.Some? then views[(w.sub, w.evt.aggId) := w.row.value] else views - {(w.sub, w.evt.aggId)}
  }

  /** The effect of a commit. */
  function Merge<V>(d: World<V>, w: Writes<V>): World<V> {
    d.(events := d.events + w.events,
       outbox := Publish(d.outbox + NewRows(w.outbox), w.published),
       snapshots := InsertSnapshot(d.snapshots, w.snapshot),
       processed := d.processed + w.marks,
       views := if w.view.Some? then PutView(d.views, w.view.value) else d.views,
       applied := if w.view.Some? then d.applied + [Application(w.view.value.sub, w.view.value.evt)] else d.applied)
  }

  /** The end of a transaction, whichever way, gives its row locks back. */
  function Unlock<V>(d: World<V>, me: Session): World<V> {
    d.(locks := map id | id in d.locks && d.locks[id] != me :: d.locks[id])
  }

  // ----- Hypotheses on the application -----

  /** A command handler tracks `e` successfully on some aggregate, knowing that
      much about the stream. */
  ghost predicate TrackedBy<S(!new), V(!new)>(cfg: Config<S, V>, known: bool, e: Event) {
    && e.aggType == cfg.spec.aggType
    && exists c :: cfg.allowed(known, c, e) && e.version == c.version + 1 && Track(cfg.spec, c, e).1.Nil?
  }

  ghost predicate Tracked<S(!new), V(!new)>(cfg: Config<S, V>, e: Event) {
    exists known :: TrackedBy(cfg, known, e)
  }

  /** The first event of a stream is tracked when the stream is not known to exist. */
  ghost predicate Trackable<S(!new), V(!new)>(cfg: Config<S, V>, e: Event) {
    exists known :: TrackedBy(cfg, known, e) && (e.version == 1 ==> !known)
  }

  /** Tracked events leave the aggregate with the id of its stream. */
  ghost predicate Disciplined<S(!new), V(!new)>(cfg: Config<S, V>) {
    forall known, c, e ::
      (&& cfg.allowed(known, c, e)
       && e.version == c.version + 1
       && (known ==> c.version > 0)
       && (c == EmptyCore(cfg.spec) || c.id == e.aggId)
       && cfg.spec.apply(c, e).ok)
      ==> cfg.spec.apply(c, e).core.id == e.aggId
  }

  ghost predicate Faithful<S(!new), V(!new)>(cfg: Config<S, V>) {
    AppliesVersions(cfg.spec) && Lossless(cfg.spec) && Disciplined(cfg)
  }

  /** What the write side asks of an aggregate: Apply gives it the version of the
      event, and snapshots either forget the version or are lossless. */
  ghost predicate Replayable<S(!new), V(!new)>(cfg: Config<S, V>) {
    AppliesVersions(cfg.spec) && (ForgetsVersion(cfg.spec) || Faithful(cfg))
  }

  /** What the read side asks on top: handlers write in the transaction. */
  ghost predicate Transactional<S(!new), V(!new)>(cfg: Config<S, V>) {
    Replayable(cfg) && !cfg.pooled
  }

  /** A subscriber whose handler follows the stream of `a`. */
  ghost predicate Suited<S(!new), V(!new)>(cfg: Config<S, V>, d: World<V>, sub: SubId, a: AggId) {
    Replayable(cfg) && sub in cfg.subs && Follows(cfg.subs[sub], Stream(d.events, a))
  }

  /** The same, with a handler that writes in the transaction. */
  ghost predicate Followed<S(!new), V(!new)>(cfg: Config<S, V>, d: World<V>, sub: SubId, a: AggId) {
    Suited(cfg, d, sub, a) && !cfg.pooled
  }

  /** A handler that finds the view one version behind an event moves it to the
      version of the event: then it follows every stream. */
  ghost predicate HandlerContract<S(!new), V(!new)>(cfg: Config<S, V>) {
    forall sub, row, e {:trigger cfg.subs[sub].handle(row, e)} ::
      sub in cfg.subs && Trackable(cfg, e) && VersionOf(row) + 1 == e.version ==>
        cfg.subs[sub].handle(row, e).Some? && cfg.subs[sub].handle(row, e).value.version == e.version
  }

  // ----- What holds of the shared state at every moment -----

  /** The dual write: log and outbox hold the same events. */
  ghost predicate DualWrite(events: seq<Event>, outbox: seq<OutboxRow>) {
    OutboxEvents(outbox) == events
  }

  ghost predicate AllTracked<S(!new), V(!new)>(cfg: Config<S, V>, events: seq<Event>) {
    forall e :: e in events ==> Tracked(cfg, e)
  }

  ghost predicate AllTrackable<S(!new), V(!new)>(cfg: Config<S, V>, events: seq<Event>) {
    forall e :: e in events ==> Trackable(cfg, e)
  }

  /** `published = TRUE` means that the broker has it, if it has a topic. */
  ghost predicate PublishedReachedBroker(outbox: seq<OutboxRow>, messages: seq<Event>) {
    forall i :: 0 <= i < |outbox| && outbox[i].published && outbox[i].evt.aggType != "" ==> outbox[i].evt in messages
  }

  ghost predicate MessagesAreEvents(messages: seq<Event>, events: seq<Event>) {
    forall m :: m in messages ==> m in events && m.aggType != ""
  }

  /** Locked rows exist and are unpublished. */
  ghost predicate LocksUnpublished(outbox: seq<OutboxRow>, locks: map<EventId, Session>) {
    forall id :: id in locks ==> exists i :: 0 <= i < |outbox| && outbox[i].evt.id == id && !outbox[i].published
  }

  ghost predicate ProcessedAreEvents(processed: set<(EventId, SubId)>, events: seq<Event>) {
    forall p :: p in processed ==> exists e :: e in events && e.id == p.0
  }

  /** The view is the fold of a prefix of its stream, as long as its version. */
  ghost predicate ViewIsFold<S(!new), V(!new)>(cfg: Config<S, V>, d: World<V>, sub: SubId, a: AggId)
    requires sub in cfg.subs
  {
    var k := ViewVersion(d, sub, a);
    0 <= k <= |Stream(d.events, a)| && ViewRow(d, sub, a) == ViewFold(cfg.subs[sub], Stream(d.events, a)[..k])
  }

  /** Events within the view are processed. */
  ghost predicate SeenAreProcessed<V>(d: World<V>, sub: SubId, a: AggId) {
    forall e :: e in d.events && e.aggId == a && e.version <= ViewVersion(d, sub, a) ==> (e.id, sub) in d.processed
  }

  /** Processed events are within the view. */
  ghost predicate ProcessedAreSeen<V>(d: World<V>, sub: SubId, a: AggId) {
    forall e :: e in d.events && e.aggId == a && (e.id, sub) in d.processed ==> e.version <= ViewVersion(d, sub, a)
  }

  /** The handler was applied to versions 1..k, in order, each once. */
  ghost predicate AppliedIsPrefix<V>(d: World<V>, sub: SubId, a: AggId) {
    0 <= ViewVersion(d, sub, a) <= |Stream(d.events, a)| &&
    AppliedTo(d.applied, sub, a) == Stream(d.events, a)[..ViewVersion(d, sub, a)]
  }

  ghost predicate AcksAreProcessed<V>(d: World<V>) {
    forall p :: p in d.acked ==> p.0 < |d.messages| && (d.messages[p.0].id, p.1) in d.processed
  }

  /** Payloads were marshalled from some aggregate, and what they restore is never
      ahead of its stream. */
  ghost predicate SnapshotsBounded<S(!new), V(!new)>(cfg: Config<S, V>, d: World<V>) {
    forall row :: row in d.snapshots ==> SnapshotBounded(cfg, d, row)
  }

  ghost predicate SnapshotBounded<S(!new), V(!new)>(cfg: Config<S, V>, d: World<V>, row: SnapshotRow) {
    var c := cfg.spec.unmarshal(row.payload);
    && 0 <= row.version
    && (exists origin :: cfg.spec.marshal(origin) == Some(row.payload))
    && (c.Some? ==> 0 <= c.value.version <= |Stream(d.events, row.aggId)|)
  }

  ghost predicate SnapshotsAgree<S(!new), V(!new)>(cfg: Config<S, V>, d: World<V>) {
    forall row :: row in d.snapshots ==> SnapshotAgrees(cfg, d.events, row)
  }

  /** A snapshot at version v decodes to the replay of events 1..v. */
  ghost predicate SnapshotAgrees<S(!new), V(!new)>(cfg: Config<S, V>, events: seq<Event>, row: SnapshotRow) {
    && cfg.frequency > 0 && row.version % cfg.frequency == 0
    && 1 <= row.version <= |Stream(events, row.aggId)|
    && cfg.spec.unmarshal(row.payload) == Some(Replay(cfg.spec, Stream(events, row.aggId)[..row.version]).core)
  }

  ghost predicate AllWholesome<S(!new), V(!new)>(cfg: Config<S, V>, events: seq<Event>) {
    forall a :: Wholesome(cfg.spec, a, Stream(events, a))
  }

  /** The primary key of the snapshots table. */
  ghost predicate SnapshotsUnique(rows: seq<SnapshotRow>) {
    forall i, j :: 0 <= i < j < |rows| ==> rows[i].aggId != rows[j].aggId || rows[i].version != rows[j].version
  }

  /** Holds whatever aggregates, handlers and snapshots do. */
  ghost predicate BaseInv<S(!new), V(!new)>(cfg: Config<S, V>, d: World<V>) {
    && UniqueIds(d.events)
    && UniqueVersions(d.events)
    && AllTracked(cfg, d.events)
    && DualWrite(d.events, d.outbox)
    && SnapshotsUnique(d.snapshots)
    && PublishedReachedBroker(d.outbox, d.messages)
    && MessagesAreEvents(d.messages, d.events)
    && LocksUnpublished(d.outbox, d.locks)
    && ProcessedAreEvents(d.processed, d.events)
    && AcksAreProcessed(d)
  }

  /** Holds of the write side of replayable aggregates. */
  ghost predicate WriteInv<S(!new), V(!new)>(cfg: Config<S, V>, d: World<V>) {
    && Contiguous(d.events)
    && AllTrackable(cfg, d.events)
    && SnapshotsBounded(cfg, d)
    && (Faithful(cfg) ==> AllWholesome(cfg, d.events) && SnapshotsAgree(cfg, d))
  }

  /** Holds of the view of a followed stream. */
  ghost predicate ViewOk<S(!new), V(!new)>(cfg: Config<S, V>, d: World<V>, sub: SubId, a: AggId)
    requires sub in cfg.subs
  {
    && ViewIsFold(cfg, d, sub, a)
    && AppliedIsPrefix(d, sub, a)
    && SeenAreProcessed(d, sub, a)
    && ProcessedAreSeen(d, sub, a)
  }

  ghost predicate ReadInv<S(!new), V(!new)>(cfg: Config<S, V>, d: World<V>) {
    forall sub, a :: Followed(cfg, d, sub, a) ==> ViewOk(cfg, d, sub, a)
  }

  /** The invariant of every system: each part under the hypotheses it needs. */
  ghost predicate Inv<S(!new), V(!new)>(cfg: Config<S, V>, d: World<V>) {
    && BaseInv(cfg, d)
    && (Replayable(cfg) ==> WriteInv(cfg, d))
    && ReadInv(cfg, d)
  }

  // ----- How the shared state may move -----

  ghost predicate OutboxGrows(rows: seq<OutboxRow>, rows': seq<OutboxRow>) {
    |rows| <= |rows'| && forall i :: 0 <= i < |rows| ==>
      rows'[i].evt == rows[i].evt && (rows[i].published ==> rows'[i].published)
  }

  ghost predicate ViewsAdvance<S(!new), V(!new)>(cfg: Config<S, V>, d: World<V>, d': World<V>) {
    forall sub, a :: Followed(cfg, d', sub, a) ==> ViewVersion(d, sub, a) <= ViewVersion(d', sub, a)
  }

  /** Nothing committed is ever taken back; views of followed streams advance. */
  ghost predicate Grows<S(!new), V(!new)>(cfg: Config<S, V>, d: World<V>, d': World<V>) {
    && d.events <= d'.events
    && OutboxGrows(d.outbox, d'.outbox)
    && d.snapshots <= d'.snapshots
    && d.processed <= d'.processed
    && d.messages <= d'.messages
    && d.acked <= d'.acked
    && d.applied <= d'.applied
    && ViewsAdvance(cfg, d, d')
  }

  /** Session `me` holds the same row locks in both states. */
  ghost predicate SameLocks<V>(me: Session, d: World<V>, d': World<V>) {
    forall id :: (id in d.locks && d.locks[id] == me) <==> (id in d'.locks && d'.locks[id] == me)
  }

  /** What a session may rely on while others run. */
  ghost predicate Rely<S(!new), V(!new)>(cfg: Config<S, V>, me: Session, d: World<V>, d': World<V>) {
    Inv(cfg, d') && Grows(cfg, d, d') && SameLocks(me, d, d')
  }

  /** What one atomic action of session `me` guarantees to all others. */
  ghost predicate Guarantee<S(!new), V(!new)>(cfg: Config<S, V>, me: Session, d: World<V>, d': World<V>) {
    Inv(cfg, d') && Grows(cfg, d, d') && forall other :: other != me ==> SameLocks(other, d, d')
  }

  lemma FollowsPrefix<V(!new)>(sub: Subscription<V>, es: seq<Event>, es': seq<Event>)
    requires es <= es' && Follows(sub, es')
    ensures Follows(sub, es)
  {
    forall k | 1 <= k <= |es|
      ensures VersionOf(ViewFold(sub, es[..k])) == k
    {
      assert es[..k] == es'[..k];
    }
  }

  /** A stream that is followed now was followed when it was shorter. */
  lemma FollowedBefore<S(!new), V(!new)>(cfg: Config<S, V>, d: World<V>, d': World<V>, sub: SubId, a: AggId)
    requires d.events <= d'.events && Followed(cfg, d', sub, a)
    ensures Followed(cfg, d, sub, a)
  {
    StreamPrefix(d.events, d'.events, a);
    FollowsPrefix(cfg.subs[sub], Stream(d.events, a), Stream(d'.events, a));
  }

  /** States in which a projection reads the same. */
  lemma SameReadSide<S(!new), V(!new)>(cfg: Config<S, V>, d: World<V>, d': World<V>)
    requires d'.events == d.events && d'.views == d.views && d'.processed == d.processed && d'.applied == d.applied
    ensures ReadInv(cfg, d) ==> ReadInv(cfg, d')
    ensures ViewsAdvance(cfg, d, d')
  {
    forall sub, a | Followed(cfg, d', sub, a)
      ensures ViewVersion(d, sub, a) <= ViewVersion(d', sub, a)
      ensures ReadInv(cfg, d) ==> ViewOk(cfg, d', sub, a)
    {
      assert ViewRow(d', sub, a) == ViewRow(d, sub, a);
      assert Followed(cfg, d, sub, a);
    }
  }

  lemma SameWriteSide<S(!new), V(!new)>(cfg: Config<S, V>, d: World<V>, d': World<V>)
    requires WriteInv(cfg, d) && d'.events == d.events && d'.snapshots == d.snapshots
    ensures WriteInv(cfg, d')
  {
    forall row | row in d'.snapshots
      ensures SnapshotBounded(cfg, d', row)
    {
      assert SnapshotBounded(cfg, d, row);
    }
  }

  lemma GrowsReflexive<S(!new), V(!new)>(cfg: Config<S, V>, d: World<V>)
    ensures Grows(cfg, d, d)
  {
  }

  lemma GrowsTransitive<S(!new), V(!new)>(cfg: Config<S, V>, d: World<V>, d': World<V>, d'': World<V>)
    requires Grows(cfg, d, d') && Grows(cfg, d', d'')
    ensures Grows(cfg, d, d'')
  {
    forall sub, a | Followed(cfg, d'', sub, a)
      ensures ViewVersion(d, sub, a) <= ViewVersion(d'', sub, a)
    {
      FollowedBefore(cfg, d', d'', sub, a);
    }
  }
}
