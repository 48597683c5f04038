/** What holds in every reachable state, for any number of processes, under any
    interleaving, duplication, reordering, failure, crash or retry.

    Each theorem asks for no more than it needs: nothing, replayable aggregates,
    transactional handlers, or handlers that do not hide failures; and what is said
    of a view asks only about the stream of that view. */
module Safety {
  import opened Events
  import opened Aggregates
  import opened World
  import opened Saving
  import opened Projecting
  import opened Relaying
  import opened Loading
  import opened Machine

  // ----- The read side -----

  lemma ReachableView<S(!new), V(!new)>(cfg: Config<S, V>, s: System<S, V>, sub: SubId, a: AggId)
    requires Reachable(cfg, s) && Followed(cfg, s.world, sub, a)
    ensures SystemInv(cfg, s) && ViewOk(cfg, s.world, sub, a)
  {
    ReachableInv(cfg, s);
  }

  /** Every view of a followed stream is the fold of a prefix of the committed log. */
  lemma PrefixConsistency<S(!new), V(!new)>(cfg: Config<S, V>, s: System<S, V>, sub: SubId, a: AggId)
    requires Reachable(cfg, s) && Followed(cfg, s.world, sub, a)
    ensures var k, stream := ViewVersion(s.world, sub, a), Stream(s.world.events, a);
      0 <= k <= |stream| && ViewRow(s.world, sub, a) == ViewFold(cfg.subs[sub], stream[..k])
  {
    ReachableView(cfg, s, sub, a);
  }

  /** The committed handler runs of a subscriber on an aggregate are exactly the
      events 1..k of its stream, in that order: an event has been applied once if the
      view has it, and never otherwise. */
  lemma ExactlyOnceInOrder<S(!new), V(!new)>(cfg: Config<S, V>, s: System<S, V>, sub: SubId, a: AggId)
    requires Reachable(cfg, s) && Followed(cfg, s.world, sub, a)
    ensures var k := ViewVersion(s.world, sub, a);
      && 0 <= k <= |Stream(s.world.events, a)|
      && AppliedTo(s.world.applied, sub, a) == Stream(s.world.events, a)[..k]
      && forall j :: 0 <= j < k ==> AppliedTo(s.world.applied, sub, a)[j].version == j + 1
    ensures forall e :: e in s.world.events && e.aggId == a ==>
      multiset(s.world.applied)[Application(sub, e)] == if e.version <= ViewVersion(s.world, sub, a) then 1 else 0
  {
    ReachableView(cfg, s, sub, a);
    forall e | e in s.world.events && e.aggId == a
      ensures multiset(s.world.applied)[Application(sub, e)] ==
        if e.version <= ViewVersion(s.world, sub, a) then 1 else 0
    {
      AppliedOnce(cfg, s.world, sub, e);
    }
  }

  lemma AppliedOnce<S(!new), V(!new)>(cfg: Config<S, V>, d: World<V>, sub: SubId, e: Event)
    requires Inv(cfg, d) && Followed(cfg, d, sub, e.aggId) && e in d.events
    ensures multiset(d.applied)[Application(sub, e)] == if e.version <= ViewVersion(d, sub, e.aggId) then 1 else 0
  {
    assert ViewOk(cfg, d, sub, e.aggId);
    var done := Stream(d.events, e.aggId)[..ViewVersion(d, sub, e.aggId)];
    AppliedCount(d.applied, sub, e);
    VersionsCount(done, e);
    RowAtVersion(d.events, e);
    if e.version <= |done| {
      assert done[e.version - 1] == e;
    }
  }

  /** The handler of an event took effect once if the event is processed, and never
      otherwise. */
  lemma AppliedOnceIffProcessed<S(!new), V(!new)>(cfg: Config<S, V>, d: World<V>, sub: SubId, e: Event)
    requires Inv(cfg, d) && Followed(cfg, d, sub, e.aggId) && e in d.events
    ensures multiset(d.applied)[Application(sub, e)] == if Processed(d, sub, e) then 1 else 0
  {
    AppliedOnce(cfg, d, sub, e);
    assert ViewOk(cfg, d, sub, e.aggId);
  }

  lemma {:induction false} AppliedCount(history: seq<Application>, sub: SubId, e: Event)
    ensures multiset(AppliedTo(history, sub, e.aggId))[e] == multiset(history)[Application(sub, e)]
  {
    if history != [] {
      var init, last := history[..|history| - 1], history[|history| - 1];
      assert history == init + [last];
      AppliedCount(init, sub, e);
    }
  }

  lemma {:induction false} VersionsCount(es: seq<Event>, e: Event)
    requires forall j :: 0 <= j < |es| ==> es[j].version == j + 1
    ensures multiset(es)[e] <= 1
  {
    if es != [] {
      var init, last := es[..|es| - 1], es[|es| - 1];
      assert es == init + [last];
      VersionsCount(init, e);
      if e == last {
        assert e !in init;
      }
    }
  }

  /** An event is processed iff its version is at most the version of the view. */
  lemma ProcessedIffWithinView<S(!new), V(!new)>(cfg: Config<S, V>, s: System<S, V>, sub: SubId, e: Event)
    requires Reachable(cfg, s) && e in s.world.events && Followed(cfg, s.world, sub, e.aggId)
    ensures Processed(s.world, sub, e) <==> e.version <= ViewVersion(s.world, sub, e.aggId)
  {
    ReachableView(cfg, s, sub, e.aggId);
  }

  /** A transaction begun on a version read that is outdated by now, whatever was
      applied in between, can no longer take effect. */
  lemma StaleTransactionCannotCommit<S(!new), V(!new)>(cfg: Config<S, V>, s: System<S, V>, p: nat, reported: bool)
    requires Reachable(cfg, s) && p in s.workers && s.workers[p].InTx? && s.workers[p].i < |s.world.messages|
    requires var e := s.world.messages[s.workers[p].i];
      && Followed(cfg, s.world, s.workers[p].sub, e.aggId)
      && s.workers[p].version < ViewVersion(s.world, s.workers[p].sub, e.aggId)
    ensures Take(cfg, s, ByWorker(p, CommitHandling(true, reported))) == None
  {
    ReachableWorker(cfg, s, p);
    StaleIsProcessed(cfg, s.world, s.workers[p], reported);
  }

  lemma ReachableWorker<S(!new), V(!new)>(cfg: Config<S, V>, s: System<S, V>, p: nat)
    requires Reachable(cfg, s) && p in s.workers
    ensures Inv(cfg, s.world) && WorkerOk(cfg, s.world, s.workers[p])
  {
    ReachableInv(cfg, s);
  }

  /** Its mark is there already. */
  lemma StaleIsProcessed<S(!new), V(!new)>(cfg: Config<S, V>, d: World<V>, wk: Worker<V>, reported: bool)
    requires Inv(cfg, d) && WorkerOk(cfg, d, wk) && wk.InTx?
    requires Followed(cfg, d, wk.sub, d.messages[wk.i].aggId)
    requires wk.version < ViewVersion(d, wk.sub, d.messages[wk.i].aggId)
    ensures Processed(d, wk.sub, d.messages[wk.i])
    ensures Handling(cfg, d, wk, CommitHandling(true, reported)) == None
  {
    var e := d.messages[wk.i];
    assert ViewOk(cfg, d, wk.sub, e.aggId);
    if wk.stage.Marked? {
      MarkAdmitsNone(cfg, d, wk.stage.writes, wk.sub, e);
    }
  }

  /** Returning nil, hence acknowledging, implies that the event is durably
      processed: whatever handlers do, and however commits are reported. */
  lemma NilMeansProcessed<S(!new), V(!new)>(cfg: Config<S, V>, s: System<S, V>)
    requires Reachable(cfg, s)
    ensures forall p :: p in s.workers && s.workers[p].Finished? && s.workers[p].ok ==>
      s.workers[p].i < |s.world.messages| && Processed(s.world, s.workers[p].sub, s.world.messages[s.workers[p].i])
    ensures forall i, sub :: (i, sub) in s.world.acked ==>
      i < |s.world.messages| && Processed(s.world, sub, s.world.messages[i])
  {
    ReachableInv(cfg, s);
    forall p | p in s.workers && s.workers[p].Finished? && s.workers[p].ok
      ensures s.workers[p].i < |s.world.messages|
      ensures Processed(s.world, s.workers[p].sub, s.world.messages[s.workers[p].i])
    {
      assert WorkerOk(cfg, s.world, s.workers[p]);
    }
  }

  /** The contract of the framework for handlers is enough to follow every stream. */
  lemma ContractFollows<S(!new), V(!new)>(cfg: Config<S, V>, s: System<S, V>, sub: SubId, a: AggId)
    requires Replayable(cfg) && HandlerContract(cfg) && Reachable(cfg, s) && sub in cfg.subs
    ensures Suited(cfg, s.world, sub, a)
  {
    ReachableInv(cfg, s);
    var es := Stream(s.world.events, a);
    StreamMembers(s.world.events, a);
    FollowsChain(cfg, sub, es);
  }

  lemma {:induction false} FollowsChain<S(!new), V(!new)>(cfg: Config<S, V>, sub: SubId, es: seq<Event>)
    requires HandlerContract(cfg) && sub in cfg.subs && (forall e :: e in es ==> Trackable(cfg, e))
    requires forall k :: 0 <= k < |es| ==> es[k].version == k + 1
    ensures Follows(cfg.subs[sub], es) && VersionOf(ViewFold(cfg.subs[sub], es)) == |es|
    decreases |es|
  {
    if es != [] {
      var init, last := es[..|es| - 1], es[|es| - 1];
      assert es == init + [last];
      FollowsChain(cfg, sub, init);
      assert Trackable(cfg, last);
      assert ViewFold(cfg.subs[sub], es) == cfg.subs[sub].handle(ViewFold(cfg.subs[sub], init), last);
      forall k | 1 <= k <= |es|
        ensures VersionOf(ViewFold(cfg.subs[sub], es[..k])) == k
      {
        assert es[..k] == if k < |es| then init[..k] else es;
      }
    }
  }

  // ----- The write side -----

  /** Under any interleaving each stream carries exactly the versions 1..n, in
      commit order. */
  lemma StreamsAreContiguous<S(!new), V(!new)>(cfg: Config<S, V>, s: System<S, V>, a: AggId, k: nat)
    requires Replayable(cfg) && Reachable(cfg, s) && k < |Stream(s.world.events, a)|
    ensures Stream(s.world.events, a)[k].version == k + 1
  {
    ReachableInv(cfg, s);
  }

  /** The dual write: whichever saves failed or were rolled back, log and outbox
      hold the same events, field for field and in the same order. */
  lemma DualWriteConserved<S(!new), V(!new)>(cfg: Config<S, V>, s: System<S, V>)
    requires Reachable(cfg, s)
    ensures OutboxEvents(s.world.outbox) == s.world.events
  {
    ReachableInv(cfg, s);
  }

  /** What was committed stays: streams, outbox, marks and broker only advance, and
      so do the views of followed streams. */
  lemma NothingIsTakenBack<S(!new), V(!new)>(cfg: Config<S, V>, s: System<S, V>, run: seq<Step>, s': System<S, V>)
    requires Reachable(cfg, s) && After(cfg, s, run) == Some(s')
    ensures Grows(cfg, s.world, s'.world)
    ensures forall a :: Stream(s.world.events, a) <= Stream(s'.world.events, a)
  {
    ReachableInv(cfg, s);
    RunKeepsInv(cfg, s, run, s');
    forall a
      ensures Stream(s.world.events, a) <= Stream(s'.world.events, a)
    {
      StreamPrefix(s.world.events, s'.world.events, a);
    }
  }

  /** A committed update was computed on exactly the events before it: the
      stream grows by its events, and the aggregate it left in memory is the
      replay of the new stream, reached from the replay of the old one. */
  lemma NoLostUpdate<S(!new), V(!new)>(
      cfg: Config<S, V>, s: System<S, V>, w: nat, withSnapshot: bool, s': System<S, V>)
    requires Replayable(cfg) && Reachable(cfg, s)
    requires Take(cfg, s, ByWriter(w, CommitSave(withSnapshot))) == Some(s')
    ensures var Loaded(a, _, core, es) := s.writers[w];
      var stream := Stream(s.world.events, a);
      && Stream(s'.world.events, a) == stream + es
      && core.version == |stream| + |es|
      && (Faithful(cfg) ==>
        && Replay(cfg.spec, stream).ok
        && ReplayFrom(cfg.spec, Replay(cfg.spec, stream).core, es) == Applied(core, true)
        && Replay(cfg.spec, stream + es) == Applied(core, true))
  {
    ReachableInv(cfg, s);
    var Loaded(a, known, core, es) := s.writers[w];
    assert WriterOk(cfg, s.world, s.writers[w]);
    SaveKeepsInv(cfg, s.world, a, known, core, es, Snapshot(cfg, core, withSnapshot));
    if Faithful(cfg) {
      SavedReplay(cfg, s.world.events, a, known, core, es);
    }
  }

  lemma SavedReplay<S(!new), V(!new)>(
      cfg: Config<S, V>, events: seq<Event>, a: AggId, known: bool, core: Core<S>, es: seq<Event>)
    requires Faithful(cfg) && ContinuesFrom(cfg, events, a, known, core, es)
    requires core.version == |Stream(events, a)| + |es| && Wholesome(cfg.spec, a, Stream(events, a))
    ensures var stream := Stream(events, a);
      && Replay(cfg.spec, stream).ok
      && ReplayFrom(cfg.spec, Replay(cfg.spec, stream).core, es) == Applied(core, true)
      && Replay(cfg.spec, stream + es) == Applied(core, true)
  {
    var stream := Stream(events, a);
    assert stream[..|stream|] == stream;
    WholeReplay(cfg.spec, a, stream);
    ReplayConcat(cfg.spec, EmptyCore(cfg.spec), stream, es);
  }

  /** Of all writers that loaded a stream at the same version at most one
      commits: once one did, the others never can. */
  lemma AtMostOneWriterCommits<S(!new), V(!new)>(
      cfg: Config<S, V>, s: System<S, V>, w: nat, withSnapshot: bool, s': System<S, V>, run: seq<Step>,
      s'': System<S, V>, other: nat, withSnapshot': bool)
    requires Replayable(cfg) && Reachable(cfg, s)
    requires Take(cfg, s, ByWriter(w, CommitSave(withSnapshot))) == Some(s') && After(cfg, s', run) == Some(s'')
    requires other in s''.writers && s''.writers[other].Loaded? && s.writers[w].agg == s''.writers[other].agg
    requires s.writers[w].core.version - |s.writers[w].es| == s''.writers[other].core.version - |s''.writers[other].es|
    ensures Take(cfg, s'', ByWriter(other, CommitSave(withSnapshot'))) == None
  {
    ReachableInv(cfg, s);
    StepKeepsInv(cfg, s, ByWriter(w, CommitSave(withSnapshot)), s');
    RunKeepsInv(cfg, s', run, s'');
    var Loaded(a, known, core, es) := s.writers[w];
    assert WriterOk(cfg, s.world, s.writers[w]);
    SaveKeepsInv(cfg, s.world, a, known, core, es, Snapshot(cfg, core, withSnapshot));
    StreamPrefix(s'.world.events, s''.world.events, a);
    OldBaseCannotCommit(cfg, s'', other, withSnapshot');
  }

  /** A writer whose base is behind its stream cannot commit. */
  lemma OldBaseCannotCommit<S(!new), V(!new)>(cfg: Config<S, V>, s: System<S, V>, w: nat, withSnapshot: bool)
    requires Replayable(cfg) && SystemInv(cfg, s) && w in s.writers && s.writers[w].Loaded?
    requires s.writers[w].core.version - |s.writers[w].es| != |Stream(s.world.events, s.writers[w].agg)|
    ensures TakeWriter(cfg, s, w, CommitSave(withSnapshot)) == None
  {
    var Loaded(a, known, core, es) := s.writers[w];
    assert WriterOk(cfg, s.world, s.writers[w]);
    if es != [] && UniqueIds(s.world.events + es) {
      CommitsIffCurrent(cfg, s.world, a, known, core, es, Snapshot(cfg, core, withSnapshot));
    }
  }

  /** The two-query load returns the full replay of the stream as committed at
      the second query, whatever was committed since the first. */
  lemma LoadIsLinearizable<S(!new), V(!new)>(cfg: Config<S, V>, s: System<S, V>, w: nat, s': System<S, V>)
    requires Faithful(cfg) && Reachable(cfg, s)
    requires Take(cfg, s, ByWriter(w, QueryTail)) == Some(s')
    ensures var a := s.writers[w].agg;
      Replay(cfg.spec, Stream(s.world.events, a)).ok &&
      s'.writers[w] == Loaded(a, s.writers[w].known, Replay(cfg.spec, Stream(s.world.events, a)).core, [])
  {
    ReachableInv(cfg, s);
    var Loading(a, known, from, core) := s.writers[w];
    assert WriterOk(cfg, s.world, s.writers[w]);
    LoadIsReplay(cfg, s.world, a, known, from, core);
  }

  /** Every snapshot at version v decodes to the replay of events 1..v, and v is
      a multiple of the frequency within the stream. */
  lemma SnapshotAgreement<S(!new), V(!new)>(cfg: Config<S, V>, s: System<S, V>, row: SnapshotRow)
    requires Faithful(cfg) && Reachable(cfg, s) && row in s.world.snapshots
    ensures cfg.frequency > 0 && row.version % cfg.frequency == 0
    ensures 1 <= row.version <= |Stream(s.world.events, row.aggId)|
    ensures cfg.spec.unmarshal(row.payload) ==
      Some(Replay(cfg.spec, Stream(s.world.events, row.aggId)[..row.version]).core)
  {
    ReachableInv(cfg, s);
    assert SnapshotAgrees(cfg, s.world.events, row);
  }

  /** A save that takes its snapshot leaves one at each multiple of the frequency, and
      nowhere else; and no version of an aggregate ever has two. */
  lemma SnapshotAtFrequency<S(!new), V(!new)>(cfg: Config<S, V>, s: System<S, V>, w: nat, s': System<S, V>)
    requires Reachable(cfg, s) && Take(cfg, s, ByWriter(w, CommitSave(true))) == Some(s')
    ensures SnapshotTaken(cfg, s.world, s'.world, s.writers[w].core)
    ensures SnapshotsUnique(s.world.snapshots) && SnapshotsUnique(s'.world.snapshots)
  {
    var core, es := s.writers[w].core, s.writers[w].es;
    ReachableInv(cfg, s);
    StepKeepsInv(cfg, s, ByWriter(w, CommitSave(true)), s');
    SaveTakesSnapshot(cfg, s.world, core, es);
  }

  /** Every non-empty committed prefix replays without error to a valid
      aggregate, although replaying never validates. */
  lemma HistoryIsValid<S(!new), V(!new)>(cfg: Config<S, V>, s: System<S, V>, a: AggId, k: nat)
    requires Faithful(cfg) && Reachable(cfg, s) && 1 <= k <= |Stream(s.world.events, a)|
    ensures var r := Replay(cfg.spec, Stream(s.world.events, a)[..k]);
      r.ok && cfg.spec.valid(r.core) && r.core.id == a && r.core.version == k
  {
    ReachableInv(cfg, s);
    assert Wholesome(cfg.spec, a, Stream(s.world.events, a));
    assert WholesomeAt(cfg.spec, a, Stream(s.world.events, a)[..k], k);
  }

  // ----- Delivery -----

  /** No event is lost: a committed event of the subscriber's topic is waiting in
      the outbox, or waiting in the broker, or processed. */
  lemma NoEventLost<S(!new), V(!new)>(cfg: Config<S, V>, s: System<S, V>, sub: SubId, e: Event)
    requires Reachable(cfg, s) && sub in cfg.subs
    requires e in s.world.events && e.aggType == cfg.subs[sub].topic && e.aggType != ""
    ensures || e in Pending(s.world.outbox)
      || (exists i :: 0 <= i < |s.world.messages| && s.world.messages[i] == e && (i, sub) !in s.world.acked)
      || Processed(s.world, sub, e)
  {
    ReachableInv(cfg, s);
    var d := s.world;
    if e !in Pending(d.outbox) && !Processed(d, sub, e) {
      var j :| 0 <= j < |d.events| && d.events[j] == e;
      assert OutboxEvents(d.outbox)[j] == e;
      assert d.outbox[j] in d.outbox && d.outbox[j].published;
      var i :| 0 <= i < |d.messages| && d.messages[i] == e;
      assert (i, sub) !in d.acked;
    }
  }

  /** `published = TRUE` means that the event reached the broker, if and only if it
      has a topic: the others are marked without ever being sent. */
  lemma PublishedMeansSent<S(!new), V(!new)>(cfg: Config<S, V>, s: System<S, V>, row: OutboxRow)
    requires Reachable(cfg, s) && row in s.world.outbox && row.published
    ensures row.evt in s.world.messages <==> row.evt.aggType != ""
  {
    ReachableInv(cfg, s);
  }

  /** Two relays never hold the same row, and marking a batch always affects as
      many rows as it has events. */
  lemma RelaysDisjoint<S(!new), V(!new)>(cfg: Config<S, V>, s: System<S, V>, r: Session, r': Session)
    requires Reachable(cfg, s) && r in s.relays && r' in s.relays
    ensures r != r' ==> IdsOf(s.relays[r].batch) !! IdsOf(s.relays[r'].batch)
    ensures RowsAffected(s.world.outbox, IdsOf(s.relays[r].batch)) == |s.relays[r].batch|
  {
    ReachableInv(cfg, s);
    assert RelayOk(s.world, r, s.relays[r]) && RelayOk(s.world, r', s.relays[r']);
    HeldRowsAffected(cfg, s.world, r, s.relays[r].batch, s.relays[r].done);
    if r != r' {
      BatchesDisjoint(s.world, r, s.relays[r].batch, r', s.relays[r'].batch, s.relays[r].done, s.relays[r'].done);
    }
  }
}
