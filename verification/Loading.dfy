/** Loading an aggregate with two separate queries: the newest snapshot, then the
    events after it (infra/postgres/event_store.go:64-79). */
module Loading {
  import opened Events
  import opened Aggregates
  import opened World
  import opened Saving

  /** What the first query leaves in memory: a core restored from a snapshot at
      version `from`, or the empty core and 0; `known` if the stream existed. */
  ghost predicate LoadedUpTo<S(!new), V(!new)>(
      cfg: Config<S, V>, events: seq<Event>, a: AggId, known: bool, from: int, core: Core<S>) {
    && (known ==> Stream(events, a) != [])
    && (Replayable(cfg) ==>
      && 0 <= from
      && 0 <= core.version <= |Stream(events, a)|
      && (Faithful(cfg) ==>
        from <= |Stream(events, a)| && Replay(cfg.spec, Stream(events, a)[..from]) == Applied(core, true)))
  }

  lemma LoadedUpToStable<S(!new), V(!new)>(
      cfg: Config<S, V>, events: seq<Event>, events': seq<Event>, a: AggId, known: bool, from: int, core: Core<S>)
    requires LoadedUpTo(cfg, events, a, known, from, core) && events <= events'
    ensures LoadedUpTo(cfg, events', a, known, from, core)
  {
    StreamPrefix(events, events', a);
    if Faithful(cfg) {
      StreamKept(events, events', a, from);
    }
  }

  /** The state of the aggregate after the snapshot query, if it can be read. */
  function FromSnapshot<S(!new)>(spec: AggregateSpec<S>, row: Option<SnapshotRow>): Option<(int, Core<S>)> {
    if row.None? then Some((0, EmptyCore(spec)))
    else
      var c := spec.unmarshal(row.value.payload);
      if c.None? then None else Some((row.value.version, c.value))
  }

  lemma SnapshotLoads<S(!new), V(!new)>(cfg: Config<S, V>, d: World<V>, a: AggId)
    requires Inv(cfg, d)
    ensures var r := FromSnapshot(cfg.spec, LatestSnapshot(d.snapshots, a));
      r.Some? ==> LoadedUpTo(cfg, d.events, a, Stream(d.events, a) != [], r.value.0, r.value.1)
  {
    var row := LatestSnapshot(d.snapshots, a);
    if row.Some? && Replayable(cfg) {
      assert SnapshotBounded(cfg, d, row.value);
      if Faithful(cfg) {
        assert SnapshotAgrees(cfg, d.events, row.value);
        var k := row.value.version;
        var es := Stream(d.events, a);
        assert WholesomeAt(cfg.spec, a, es[..k], k);
      }
    }
  }

  lemma LoadNeverAhead<S(!new), V(!new)>(
      cfg: Config<S, V>, events: seq<Event>, a: AggId, known: bool, from: int, core: Core<S>)
    requires Replayable(cfg) && Contiguous(events) && LoadedUpTo(cfg, events, a, known, from, core)
    ensures 0 <= ReplayFrom(cfg.spec, core, RowsAfter(events, a, from)).core.version <= |Stream(events, a)|
  {
    var tail := RowsAfter(events, a, from);
    var loaded := ReplayFrom(cfg.spec, core, tail);
    ReplayVersion(cfg.spec, core, tail);
    if loaded.core.version != core.version {
      var e :| e in tail && loaded.core.version == e.version;
      RowAtVersion(events, e);
    }
  }

  lemma WholeReplay<S(!new)>(spec: AggregateSpec<S>, a: AggId, es: seq<Event>)
    requires Wholesome(spec, a, es)
    ensures Replay(spec, es).ok && Replay(spec, es).core.version == |es|
    ensures es != [] ==> spec.valid(Replay(spec, es).core) && Replay(spec, es).core.id == a
  {
    if es != [] {
      assert es[..|es|] == es;
      assert WholesomeAt(spec, a, es[..|es|], |es|);
    }
  }

  lemma SplitReplay<S(!new)>(spec: AggregateSpec<S>, es: seq<Event>, from: int)
    requires 0 <= from <= |es| && Replay(spec, es[..from]).ok
    ensures ReplayFrom(spec, Replay(spec, es[..from]).core, es[from..]) == Replay(spec, es)
  {
    assert es == es[..from] + es[from..];
    ReplayConcat(spec, EmptyCore(spec), es[..from], es[from..]);
  }

  lemma LoadFaithfully<S(!new), V(!new)>(
      cfg: Config<S, V>, events: seq<Event>, a: AggId, known: bool, from: int, core: Core<S>)
    requires Contiguous(events) && Wholesome(cfg.spec, a, Stream(events, a)) && Faithful(cfg)
    requires LoadedUpTo(cfg, events, a, known, from, core)
    ensures var loaded := ReplayFrom(cfg.spec, core, RowsAfter(events, a, from));
      loaded == Replay(cfg.spec, Stream(events, a)) && loaded.ok && loaded.core.version == |Stream(events, a)|
  {
    RowsAfterIsSuffix(events, a, from);
    SplitReplay(cfg.spec, Stream(events, a), from);
    WholeReplay(cfg.spec, a, Stream(events, a));
  }

  /** The two-query load is linearizable at the second query: whatever was
      committed in between, the result is the full replay of the stream as it is
      then; without lossless snapshots it is at least never ahead of the stream. */
  lemma LoadIsReplay<S(!new), V(!new)>(
      cfg: Config<S, V>, d: World<V>, a: AggId, known: bool, from: int, core: Core<S>)
    requires Inv(cfg, d) && LoadedUpTo(cfg, d.events, a, known, from, core)
    ensures var loaded := ReplayFrom(cfg.spec, core, RowsAfter(d.events, a, from));
      && TrackedOn(cfg, d.events, a, known, loaded.core, [])
      && (Faithful(cfg) ==>
        && loaded == Replay(cfg.spec, Stream(d.events, a)) && loaded.ok
        && loaded.core.version == |Stream(d.events, a)|)
  {
    if Replayable(cfg) {
      LoadNeverAhead(cfg, d.events, a, known, from, core);
      if Faithful(cfg) {
        LoadFaithfully(cfg, d.events, a, known, from, core);
        var es := Stream(d.events, a);
        assert es[..|es|] + [] == es;
      }
    }
  }

  /** With snapshots that forget the version, a stream that has a snapshot is
      loaded at its true version iff the newest snapshot has events after it;
      otherwise the aggregate comes back with version 0. */
  lemma ForgetfulLoad<S(!new), V(!new)>(cfg: Config<S, V>, d: World<V>, a: AggId, row: SnapshotRow, core: Core<S>)
    requires AppliesVersions(cfg.spec) && ForgetsVersion(cfg.spec) && Inv(cfg, d)
    requires LatestSnapshot(d.snapshots, a) == Some(row) && cfg.spec.unmarshal(row.payload) == Some(core)
    requires ReplayFrom(cfg.spec, core, RowsAfter(d.events, a, row.version)).ok && Stream(d.events, a) != []
    ensures var v := ReplayFrom(cfg.spec, core, RowsAfter(d.events, a, row.version)).core.version;
      && (v == |Stream(d.events, a)| <==> row.version < |Stream(d.events, a)|)
      && (v == 0 <==> row.version >= |Stream(d.events, a)|)
  {
    assert SnapshotBounded(cfg, d, row);
    var es := Stream(d.events, a);
    RowsAfterIsSuffix(d.events, a, row.version);
    ReplayVersion(cfg.spec, core, RowsAfter(d.events, a, row.version));
    if row.version < |es| {
      assert es[|es| - 1].version == |es|;
    }
  }

  /** A save commits only if it was computed at the current end of the stream;
      with fresh event ids the converse holds as well. */
  lemma CommitsIffCurrent<S(!new), V(!new)>(
      cfg: Config<S, V>, d: World<V>, a: AggId, known: bool, core: Core<S>, es: seq<Event>,
      snapshot: Option<SnapshotRow>)
    requires Replayable(cfg) && Inv(cfg, d) && es != [] && TrackedOn(cfg, d.events, a, known, core, es)
    requires UniqueIds(d.events + es)
    ensures Admits(d, SaveWrites<V>(es, snapshot)) <==> core.version - |es| == |Stream(d.events, a)|
  {
    var n := core.version - |es|;
    if UniqueVersions(d.events + es) {
      ChainExtendsStream(d.events, es, a, n);
    }
    if n == |Stream(d.events, a)| {
      var all := d.events + es;
      forall i, j | 0 <= i < j < |all|
        ensures !(all[i].aggId == all[j].aggId && all[i].version == all[j].version)
      {
        if i < |d.events| <= j {
          RowAtVersion(d.events, all[i]);
        }
      }
    }
  }
}
