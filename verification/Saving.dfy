/** Commits of the write side: what a saved aggregate does to the shared state. */
module Saving {
  import opened Events
  import opened Aggregates
  import opened World

  /** The writes of Store.Save: event rows, outbox rows, perhaps a snapshot. */
  function SaveWrites<V>(es: seq<Event>, snapshot: Option<SnapshotRow>): Writes<V> {
    Writes(es, es, snapshot, {}, None, {})
  }

  predicate ShouldSnapshot(frequency: int, version: int) {
    frequency > 0 && version % frequency == 0
  }

  /** The snapshot row of an aggregate, keyed by the id the aggregate carries. */
  function SnapshotOf<S(!new)>(spec: AggregateSpec<S>, frequency: int, core: Core<S>): Option<SnapshotRow> {
    if ShouldSnapshot(frequency, core.version) && spec.marshal(core).Some? then
      Some(SnapshotRow(core.id, core.version, spec.marshal(core).value))
    else None
  }

  ghost predicate HasSnapshot(rows: seq<SnapshotRow>, a: AggId, version: int) {
    exists row :: row in rows && row.aggId == a && row.version == version
  }

  /** At each multiple of the frequency there is a snapshot row, if the aggregate can be
      marshalled, and otherwise nothing is added (infra/postgres/event_store.go:52-58). */
  ghost predicate SnapshotTaken<S(!new), V(!new)>(cfg: Config<S, V>, d: World<V>, d': World<V>, core: Core<S>) {
    if cfg.frequency > 0 && core.version % cfg.frequency == 0 && cfg.spec.marshal(core).Some?
    then HasSnapshot(d'.snapshots, core.id, core.version) && d.snapshots <= d'.snapshots
    else d'.snapshots == d.snapshots
  }

  /** A save with its snapshot takes it exactly then. */
  lemma SaveTakesSnapshot<S(!new), V(!new)>(cfg: Config<S, V>, d: World<V>, core: Core<S>, es: seq<Event>)
    ensures SnapshotTaken(cfg, d, Merge(d, SaveWrites(es, SnapshotOf(cfg.spec, cfg.frequency, core))), core)
  {
    var row := SnapshotOf(cfg.spec, cfg.frequency, core);
    if row.Some? && !HasSnapshot(d.snapshots, row.value.aggId, row.value.version) {
      assert row.value in InsertSnapshot(d.snapshots, row);
    }
  }

  ghost predicate MaybeSnapshot<S(!new), V(!new)>(cfg: Config<S, V>, core: Core<S>, snapshot: Option<SnapshotRow>) {
    snapshot == None || snapshot == SnapshotOf(cfg.spec, cfg.frequency, core)
  }

  /** `core` is an aggregate of stream `a` with the uncommitted events `es` tracked
      on it; `known` tells whether the stream existed when the command began. */
  ghost predicate TrackedOn<S(!new), V(!new)>(
      cfg: Config<S, V>, events: seq<Event>, a: AggId, known: bool, core: Core<S>, es: seq<Event>) {
    && (known ==> Stream(events, a) != [])
    && (forall e :: e in es ==> e.aggId == a && TrackedBy(cfg, known, e))
    && (Replayable(cfg) ==> ContinuesFrom(cfg, events, a, known, core, es))
  }

  /** The aggregate was loaded at some earlier version n of the stream.  Everything
      but the bound on n is about the loaded prefix, so later commits do not
      disturb it. */
  ghost predicate ContinuesFrom<S(!new), V(!new)>(
      cfg: Config<S, V>, events: seq<Event>, a: AggId, known: bool, core: Core<S>, es: seq<Event>) {
    var n := core.version - |es|;
    && 0 <= n <= |Stream(events, a)|
    && Chain(es, a, n)
    && (Faithful(cfg) ==>
      && (known ==> n > 0)
      && Wholesome(cfg.spec, a, Stream(events, a)[..n] + es)
      && Replay(cfg.spec, Stream(events, a)[..n] + es) == Applied(core, true))
  }

  lemma TrackedOnStable<S(!new), V(!new)>(
      cfg: Config<S, V>, events: seq<Event>, events': seq<Event>, a: AggId, known: bool, core: Core<S>, es: seq<Event>)
    requires TrackedOn(cfg, events, a, known, core, es) && events <= events'
    ensures TrackedOn(cfg, events', a, known, core, es)
  {
    StreamPrefix(events, events', a);
    if Replayable(cfg) {
      var n := core.version - |es|;
      assert Stream(events', a)[..n] == Stream(events, a)[..n];
    }
  }

  /** Successful TrackChange at version + 1 keeps the aggregate well tracked. */
  lemma TrackKeepsTracked<S(!new), V(!new)>(
      cfg: Config<S, V>, events: seq<Event>, a: AggId, known: bool, core: Core<S>, es: seq<Event>, e: Event)
    requires TrackedOn(cfg, events, a, known, core, es)
    requires cfg.allowed(known, core, e) && e.aggId == a && e.aggType == cfg.spec.aggType
    requires e.version == core.version + 1 && Track(cfg.spec, core, e).1.Nil?
    ensures TrackedOn(cfg, events, a, known, Track(cfg.spec, core, e).0, es + [e])
  {
    assert TrackedBy(cfg, known, e);
    if Replayable(cfg) {
      TrackContinues(cfg, events, a, known, core, es, e);
    }
  }

  lemma TrackContinues<S(!new), V(!new)>(
      cfg: Config<S, V>, events: seq<Event>, a: AggId, known: bool, core: Core<S>, es: seq<Event>, e: Event)
    requires Replayable(cfg) && ContinuesFrom(cfg, events, a, known, core, es)
    requires cfg.allowed(known, core, e) && e.aggId == a
    requires e.version == core.version + 1 && Track(cfg.spec, core, e).1.Nil?
    ensures ContinuesFrom(cfg, events, a, known, Track(cfg.spec, core, e).0, es + [e])
  {
    var core', es' := Track(cfg.spec, core, e).0, es + [e];
    if Faithful(cfg) {
      var n := core.version - |es|;
      var before, after := Stream(events, a)[..n] + es, Stream(events, a)[..n] + es';
      assert after == before + [e];
      ReplayConcat(cfg.spec, EmptyCore(cfg.spec), before, [e]);
      assert ReplayFrom(cfg.spec, core, [e]) == Applied(core', true) by {
        assert ReplayFrom(cfg.spec, core', [e][1..]) == Applied(core', true);
      }
      if |before| == 0 {
        assert core == EmptyCore(cfg.spec);
      } else {
        assert before[..|before|] == before;
        assert WholesomeAt(cfg.spec, a, before[..|before|], |before|);
      }
      forall k | 1 <= k <= |after|
        ensures WholesomeAt(cfg.spec, a, after[..k], k)
      {
        if k <= |before| {
          assert after[..k] == before[..k];
        } else {
          assert after[..k] == after;
        }
      }
    }
  }

  /** Streams only get longer, and every prefix already there stays what it was. */
  lemma StreamKept(events: seq<Event>, events': seq<Event>, a: AggId, k: int)
    requires events <= events' && 0 <= k <= |Stream(events, a)|
    ensures |Stream(events, a)| <= |Stream(events', a)|
    ensures Stream(events', a)[..k] == Stream(events, a)[..k]
  {
    StreamPrefix(events, events', a);
  }

  lemma OutboxOfSave(d: seq<OutboxRow>, es: seq<Event>)
    ensures OutboxEvents(Publish(d + NewRows(es), {})) == OutboxEvents(d) + es
  {
  }

  // ----- The read side does not notice a save -----

  lemma SaveKeepsProjections<S(!new), V(!new)>(cfg: Config<S, V>, d: World<V>, d': World<V>)
    requires Inv(cfg, d) && d.events <= d'.events && UniqueIds(d'.events)
    requires Replayable(cfg) ==> Contiguous(d'.events)
    requires d'.views == d.views && d'.processed == d.processed && d'.applied == d.applied
    ensures ReadInv(cfg, d') && ViewsAdvance(cfg, d, d')
  {
    forall sub, a | Followed(cfg, d', sub, a)
      ensures ViewOk(cfg, d', sub, a) && ViewVersion(d, sub, a) <= ViewVersion(d', sub, a)
    {
      FollowedBefore(cfg, d, d', sub, a);
      assert ViewOk(cfg, d, sub, a);
      assert ViewRow(d', sub, a) == ViewRow(d, sub, a);
      StreamKept(d.events, d'.events, a, ViewVersion(d, sub, a));
      forall e | e in d'.events && e.aggId == a
        ensures e.version <= ViewVersion(d, sub, a) ==> (e.id, sub) in d.processed
        ensures (e.id, sub) in d.processed ==> e.version <= ViewVersion(d, sub, a)
      {
        NewEventUnseen(cfg, d, d', e, sub);
      }
    }
  }

  lemma KnownId(events: seq<Event>, events': seq<Event>, e: Event)
    requires events <= events' && UniqueIds(events') && e in events'
    requires exists x :: x in events && x.id == e.id
    ensures e in events
  {
    var x :| x in events && x.id == e.id;
    assert x in events';
    SameId(events', x, e);
  }

  /** Fresh events are neither processed nor within reach of any view. */
  lemma NewEventUnseen<S(!new), V(!new)>(cfg: Config<S, V>, d: World<V>, d': World<V>, e: Event, sub: SubId)
    requires BaseInv(cfg, d) && d.events <= d'.events && UniqueIds(d'.events) && Contiguous(d'.events)
    requires sub in cfg.subs && ViewIsFold(cfg, d, sub, e.aggId) && e in d'.events
    ensures e !in d.events ==> (e.id, sub) !in d.processed && e.version > ViewVersion(d, sub, e.aggId)
  {
    if e !in d.events {
      if (e.id, sub) in d.processed {
        KnownId(d.events, d'.events, e);
        assert false;
      }
      RowAtVersion(d'.events, e);
      StreamPrefix(d.events, d'.events, e.aggId);
      if e.version <= |Stream(d.events, e.aggId)| {
        assert Stream(d.events, e.aggId)[e.version - 1] == e;
        StreamMembers(d.events, e.aggId);
        assert false;
      }
    }
  }

  // ----- The write side -----

  lemma SaveKeepsSnapshots<S(!new), V(!new)>(cfg: Config<S, V>, d: World<V>, d': World<V>, a: AggId, core: Core<S>)
    requires Replayable(cfg) && WriteInv(cfg, d) && d.events <= d'.events
    requires d'.snapshots == d.snapshots || (
      SnapshotOf(cfg.spec, cfg.frequency, core).Some? &&
      d'.snapshots == d.snapshots + [SnapshotOf(cfg.spec, cfg.frequency, core).value])
    requires 1 <= core.version == |Stream(d'.events, a)|
    requires Faithful(cfg) ==> core.id == a && Replay(cfg.spec, Stream(d'.events, a)) == Applied(core, true)
    ensures SnapshotsBounded(cfg, d')
    ensures Faithful(cfg) ==> SnapshotsAgree(cfg, d')
  {
    forall row | row in d'.snapshots
      ensures SnapshotBounded(cfg, d', row)
      ensures Faithful(cfg) ==> SnapshotAgrees(cfg, d'.events, row)
    {
      if row in d.snapshots {
        assert SnapshotBounded(cfg, d, row);
        StreamPrefix(d.events, d'.events, row.aggId);
        if Faithful(cfg) {
          assert SnapshotAgrees(cfg, d.events, row);
          StreamKept(d.events, d'.events, row.aggId, row.version);
        }
      } else {
        assert row == SnapshotOf(cfg.spec, cfg.frequency, core).value;
        assert Stream(d'.events, a)[..core.version] == Stream(d'.events, a);
      }
    }
  }

  lemma SaveKeepsHistory<S(!new), V(!new)>(
      cfg: Config<S, V>, d: World<V>, a: AggId, known: bool, core: Core<S>, es: seq<Event>)
    requires WriteInv(cfg, d) && es != [] && Faithful(cfg)
    requires ContinuesFrom(cfg, d.events, a, known, core, es) && core.version - |es| == |Stream(d.events, a)|
    requires forall b :: Stream(d.events + es, b) == Stream(d.events, b) + if a == b then es else []
    ensures AllWholesome(cfg, d.events + es)
    ensures core.id == a && Replay(cfg.spec, Stream(d.events + es, a)) == Applied(core, true)
  {
    var n := core.version - |es|;
    var all := Stream(d.events, a) + es;
    assert Stream(d.events, a)[..n] + es == all;
    assert all[..|all|] == all;
    assert WholesomeAt(cfg.spec, a, all[..|all|], |all|);
    assert Wholesome(cfg.spec, a, all);
    forall b
      ensures Wholesome(cfg.spec, b, Stream(d.events + es, b))
    {
      if a != b {
        assert Stream(d.events + es, b) == Stream(d.events, b);
      }
    }
  }

  lemma SaveKeepsWriteInv<S(!new), V(!new)>(
      cfg: Config<S, V>, d: World<V>, a: AggId, known: bool, core: Core<S>, es: seq<Event>,
      snapshot: Option<SnapshotRow>)
    requires Replayable(cfg) && WriteInv(cfg, d) && es != [] && TrackedOn(cfg, d.events, a, known, core, es)
    requires MaybeSnapshot(cfg, core, snapshot) && UniqueVersions(d.events + es)
    ensures WriteInv(cfg, Merge(d, SaveWrites(es, snapshot)))
    ensures core.version == |Stream(d.events, a)| + |es|
  {
    var d' := Merge(d, SaveWrites<V>(es, snapshot));
    ChainExtendsStream(d.events, es, a, core.version - |es|);
    forall e | e in es
      ensures Trackable(cfg, e)
    {
      assert TrackedBy(cfg, known, e);
    }
    if Faithful(cfg) {
      SaveKeepsHistory(cfg, d, a, known, core, es);
    }
    SaveKeepsSnapshots(cfg, d, d', a, core);
  }

  lemma SaveKeepsBase<S(!new), V(!new)>(
      cfg: Config<S, V>, d: World<V>, a: AggId, known: bool, core: Core<S>, es: seq<Event>,
      snapshot: Option<SnapshotRow>)
    requires BaseInv(cfg, d) && TrackedOn(cfg, d.events, a, known, core, es) && Admits(d, SaveWrites<V>(es, snapshot))
    ensures BaseInv(cfg, Merge(d, SaveWrites(es, snapshot)))
  {
    var d' := Merge(d, SaveWrites<V>(es, snapshot));
    OutboxOfSave(d.outbox, es);
    forall e | e in es
      ensures Tracked(cfg, e)
    {
      assert TrackedBy(cfg, known, e);
    }
    forall id | id in d'.locks
      ensures exists i :: 0 <= i < |d'.outbox| && d'.outbox[i].evt.id == id && !d'.outbox[i].published
    {
      var i :| 0 <= i < |d.outbox| && d.outbox[i].evt.id == id && !d.outbox[i].published;
      assert d'.outbox[i].evt.id == id;
    }
    forall p | p in d'.processed
      ensures exists e :: e in d'.events && e.id == p.0
    {
      var e :| e in d.events && e.id == p.0;
      assert e in d'.events;
    }
  }

  /** A committed save extends exactly one stream, at its end, by exactly the
      tracked events, in both tables, and breaks nothing. */
  lemma SaveKeepsInv<S(!new), V(!new)>(
      cfg: Config<S, V>, d: World<V>, a: AggId, known: bool, core: Core<S>, es: seq<Event>,
      snapshot: Option<SnapshotRow>)
    requires Inv(cfg, d) && es != [] && TrackedOn(cfg, d.events, a, known, core, es)
    requires MaybeSnapshot(cfg, core, snapshot) && Admits(d, SaveWrites<V>(es, snapshot))
    ensures var d' := Merge(d, SaveWrites(es, snapshot));
      && Inv(cfg, d') && Grows(cfg, d, d') && d'.locks == d.locks
      && Stream(d'.events, a) == Stream(d.events, a) + es
    ensures Replayable(cfg) ==> core.version == |Stream(d.events, a)| + |es|
  {
    var d' := Merge(d, SaveWrites<V>(es, snapshot));
    StreamGrows(d.events, es, a, a);
    SaveKeepsBase(cfg, d, a, known, core, es, snapshot);
    if Replayable(cfg) {
      SaveKeepsWriteInv(cfg, d, a, known, core, es, snapshot);
    }
    SaveKeepsProjections(cfg, d, d');
  }
}
