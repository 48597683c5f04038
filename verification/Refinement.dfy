/** The components, undisturbed, are runs of the machine: a poll of a relay, and
    the transaction of a command.  (For deliveries see `Convergence`.) */
module Refinement {
  import opened Events
  import opened Aggregates
  import opened World
  import opened Loading
  import opened Relaying
  import opened Machine
  import opened Runs
  import opened Repository

  // ----- Relay.ProcessBatch -----

  /** Publishing the rest of a batch, one event after the other. */
  lemma {:induction false} PublishRun<S(!new), V(!new)>(
      cfg: Config<S, V>, s: System<S, V>, r: Session, batch: seq<Event>, done: nat, d: World<V>)
      returns (run: seq<Step>)
    requires done <= |batch|
    ensures After(cfg, s.(world := d, relays := s.relays[r := RelayTask(batch, done)]), run) ==
      Some(s.(world := SendAll(d, batch[done..]), relays := s.relays[r := RelayTask(batch, |batch|)]))
    decreases |batch| - done
  {
    var here := s.(world := d, relays := s.relays[r := RelayTask(batch, done)]);
    if done == |batch| {
      run := [];
    } else {
      var d' := Send(d, batch[done]);
      var next := s.(world := d', relays := s.relays[r := RelayTask(batch, done + 1)]);
      assert batch[done..][1..] == batch[done + 1..];
      assert here.relays[r := RelayTask(batch, done + 1)] == next.relays;
      var rest := PublishRun(cfg, s, r, batch, done + 1, d');
      run := [ByRelay(r, PublishNext)] + rest;
      Then(cfg, here, ByRelay(r, PublishNext), next, rest,
        s.(world := SendAll(d', batch[done + 1..]), relays := s.relays[r := RelayTask(batch, |batch|)]));
    }
  }

  /** An undisturbed ProcessBatch is a run of the machine. */
  lemma PollIsRun<S(!new), V(!new)>(cfg: Config<S, V>, s: System<S, V>, r: Session, batch: seq<Event>)
      returns (run: seq<Step>)
    requires r !in s.relays && IsBatch(s.world, cfg.batchSize, batch)
    ensures After(cfg, s, run) == Some(s.(world := Poll(s.world, r, batch)))
  {
    if batch == [] {
      run := EmptyPollIsRun(cfg, s, r);
    } else {
      var d := Lock(s.world, r, batch);
      var locked := s.(world := d, relays := s.relays[r := RelayTask(batch, 0)]);
      var sent := s.(world := SendAll(d, batch), relays := s.relays[r := RelayTask(batch, |batch|)]);
      var rest := PublishRun(cfg, s, r, batch, 0, d);
      assert batch[0..] == batch;
      Then(cfg, s, ByRelay(r, FetchBatch(batch)), locked, rest, sent);
      assert sent.relays - {r} == s.relays;
      run := [ByRelay(r, FetchBatch(batch))] + rest;
      Extend(cfg, s, run, sent, ByRelay(r, CommitRelay), s.(world := Poll(s.world, r, batch)));
      run := run + [ByRelay(r, CommitRelay)];
    }
  }

  lemma EmptyPollIsRun<S(!new), V(!new)>(cfg: Config<S, V>, s: System<S, V>, r: Session) returns (run: seq<Step>)
    requires r !in s.relays
    ensures After(cfg, s, run) == Some(s.(world := Poll(s.world, r, [])))
  {
    PollNothing(s.world, r);
    assert Lock(s.world, r, []).locks == s.world.locks;
    assert s.relays - {r} == s.relays;
    run := [] + [ByRelay(r, RollbackRelay)];
    Extend(cfg, s, [], s, ByRelay(r, RollbackRelay), s.(world := Poll(s.world, r, [])));
  }

  // ----- Command handlers -----

  /** Tracking one event on a loaded aggregate and committing it. */
  lemma TrackAndCommitRun<S(!new), V(!new)>(
      cfg: Config<S, V>, s: System<S, V>, run: seq<Step>, w: nat, known: bool, core: Core<S>, e: Event)
      returns (run': seq<Step>)
    requires w !in s.writers &&
      After(cfg, s, run) == Some(s.(writers := s.writers[w := Loaded(e.aggId, known, core, [])]))
    requires cfg.allowed(known, core, e) && e.aggType == cfg.spec.aggType && e.version == core.version + 1
    requires Track(cfg.spec, core, e).1.Nil? && Admits(s.world, CommandWrites<S, V>(cfg, core, e))
    ensures After(cfg, s, run') == Some(s.(world := Merge(s.world, CommandWrites(cfg, core, e))))
  {
    var core' := Track(cfg.spec, core, e).0;
    var here := s.(writers := s.writers[w := Loaded(e.aggId, known, core, [])]);
    var tracked := s.(writers := s.writers[w := Loaded(e.aggId, known, core', [e])]);
    assert [] + [e] == [e];
    assert here.writers[w := Loaded(e.aggId, known, core', [e])] == tracked.writers;
    Extend(cfg, s, run, here, ByWriter(w, TrackEvent(e)), tracked);
    assert tracked.writers - {w} == s.writers;
    Extend(cfg, s, run + [ByWriter(w, TrackEvent(e))], tracked, ByWriter(w, CommitSave(true)),
      s.(world := Merge(s.world, CommandWrites(cfg, core, e))));
    run' := run + [ByWriter(w, TrackEvent(e))] + [ByWriter(w, CommitSave(true))];
  }

  /** An undisturbed, successful creation is a run of the machine. */
  lemma CreateIsRun<S(!new), V(!new)>(cfg: Config<S, V>, s: System<S, V>, w: nat, e: Event) returns (run: seq<Step>)
    requires w !in s.writers && cfg.allowed(false, EmptyCore(cfg.spec), e)
    requires e.aggType == cfg.spec.aggType && e.version == 1
    requires Track(cfg.spec, EmptyCore(cfg.spec), e).1.Nil?
    requires Admits(s.world, CommandWrites<S, V>(cfg, EmptyCore(cfg.spec), e))
    ensures After(cfg, s, run) == Some(s.(world := Merge(s.world, CommandWrites(cfg, EmptyCore(cfg.spec), e))))
  {
    var begun := s.(writers := s.writers[w := Loaded(e.aggId, false, EmptyCore(cfg.spec), [])]);
    Extend(cfg, s, [], s, ByWriter(w, BeginCreate(e.aggId)), begun);
    run := TrackAndCommitRun(cfg, s, [] + [ByWriter(w, BeginCreate(e.aggId))], w, false, EmptyCore(cfg.spec), e);
  }

  /** An undisturbed, successful update is a run of the machine. */
  lemma UpdateIsRun<S(!new), V(!new)>(cfg: Config<S, V>, s: System<S, V>, w: nat, core: Core<S>, e: Event)
      returns (run: seq<Step>)
    requires w !in s.writers && LoadedCore(cfg, s.world, e.aggId) == Some(core)
    requires forall x :: x in Stream(s.world.events, e.aggId) ==> Registered(x)
    requires cfg.allowed(Stream(s.world.events, e.aggId) != [], core, e)
    requires e.aggType == cfg.spec.aggType && e.version == core.version + 1
    requires Track(cfg.spec, core, e).1.Nil? && Admits(s.world, CommandWrites<S, V>(cfg, core, e))
    ensures After(cfg, s, run) == Some(s.(world := Merge(s.world, CommandWrites(cfg, core, e))))
  {
    var a, d := e.aggId, s.world;
    var known := Stream(d.events, a) != [];
    var (from, start) := FromSnapshot(cfg.spec, LatestSnapshot(d.snapshots, a)).value;
    var loading := s.(writers := s.writers[w := Loading(a, known, from, start)]);
    var loaded := s.(writers := s.writers[w := Loaded(a, known, core, [])]);
    Extend(cfg, s, [], s, ByWriter(w, QuerySnapshot(a)), loading);
    StreamMembers(d.events, a);
    assert loading.writers[w := Loaded(a, known, core, [])] == loaded.writers;
    Extend(cfg, s, [] + [ByWriter(w, QuerySnapshot(a))], loading, ByWriter(w, QueryTail), loaded);
    run := TrackAndCommitRun(cfg, s, [] + [ByWriter(w, QuerySnapshot(a))] + [ByWriter(w, QueryTail)],
      w, known, core, e);
  }
}
