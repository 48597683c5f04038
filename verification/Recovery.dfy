/** Can a view that pooled handlers write still catch up?  An event is lost if it is
    processed and nobody is past the idempotency check with it: nobody will ever apply
    it again.  A view is doomed if it is before a lost event and no write that is under
    way will take it past that event.  These are exactly the views that stay behind. */
module Recovery {
  import opened Events
  import opened World
  import opened Projecting
  import opened Machine
  import opened Runs
  import opened Convergence
  import opened Gaps
  import opened Overwriting
  import opened CatchUp

  /** The worker is past the idempotency check with `e`. */
  predicate Holds<V>(d: World<V>, wk: Worker<V>, sub: SubId, e: Event) {
    (wk.Attempting? || wk.InTx?) && wk.sub == sub && wk.i < |d.messages| && d.messages[wk.i] == e
  }

  /** The worker is past the version gate and about to write the view of `a`. */
  predicate Aims<V>(d: World<V>, wk: Worker<V>, sub: SubId, a: AggId) {
    Busy(d, wk, sub, a) && wk.stage.Begun? && d.messages[wk.i].version == wk.version + 1
  }

  ghost predicate Lost<S, V>(s: System<S, V>, sub: SubId, e: Event) {
    && e in s.world.events && Processed(s.world, sub, e)
    && forall p :: p in s.workers ==> !Holds(s.world, s.workers[p], sub, e)
  }

  ghost predicate Falls<V>(d: World<V>, wk: Worker<V>, sub: SubId, e: Event) {
    Aims(d, wk, sub, e.aggId) ==> d.messages[wk.i].version < e.version
  }

  ghost predicate Doomed<S, V>(s: System<S, V>, sub: SubId, e: Event) {
    && Lost(s, sub, e) && ViewVersion(s.world, sub, e.aggId) < e.version
    && forall p :: p in s.workers ==> Falls(s.world, s.workers[p], sub, e)
  }

  // ----- A doomed view stays behind -----

  lemma HandlingStaysDoomed<S(!new), V(!new)>(
      cfg: Config<S, V>, d: World<V>, wk: Worker<V>, act: WorkerStep, sub: SubId, e: Event)
    requires cfg.pooled && Inv(cfg, d) && WorkerOk(cfg, d, wk) && Handling(cfg, d, wk, act).Some?
    requires Rebuilding(cfg, d, sub, e.aggId) && ViewIsFold(cfg, d, sub, e.aggId) && FindsRow(d, wk, sub, e.aggId)
    requires e in d.events && Processed(d, sub, e) && ViewVersion(d, sub, e.aggId) < e.version
    requires !Holds(d, wk, sub, e) && Falls(d, wk, sub, e)
    ensures var (d', wk') := Handling(cfg, d, wk, act).value;
      && d'.messages == d.messages && d'.events == d.events && d.processed <= d'.processed
      && ViewVersion(d', sub, e.aggId) < e.version
      && (wk'.Some? ==> !Holds(d', wk'.value, sub, e) && Falls(d', wk'.value, sub, e))
  {
    HandlingTouchesViews(cfg, d, wk, act);
    DoomedViewStays(cfg, d, wk, act, sub, e);
    var m := d.messages[wk.i];
    MessageAtVersion(cfg, d, wk.i);
    if m.aggId == e.aggId && m.version == e.version {
      SameVersionSameEvent(d, m, e);
    }
    NobodyJoins(cfg, d, wk, act, sub, e);
  }

  lemma DoomedViewStays<S(!new), V(!new)>(
      cfg: Config<S, V>, d: World<V>, wk: Worker<V>, act: WorkerStep, sub: SubId, e: Event)
    requires cfg.pooled && Inv(cfg, d) && WorkerOk(cfg, d, wk) && Handling(cfg, d, wk, act).Some?
    requires Rebuilding(cfg, d, sub, e.aggId) && ViewIsFold(cfg, d, sub, e.aggId) && FindsRow(d, wk, sub, e.aggId)
    requires ViewVersion(d, sub, e.aggId) < e.version && Falls(d, wk, sub, e)
    ensures ViewVersion(Handling(cfg, d, wk, act).value.0, sub, e.aggId) < e.version
  {
    PooledViews(cfg, d, wk, act);
    var d', m := Handling(cfg, d, wk, act).value.0, d.messages[wk.i];
    if act.RunHandler? && wk.sub == sub && m.aggId == e.aggId {
      MessageAtVersion(cfg, d, wk.i);
      PooledRowIsFold(cfg, d, sub, wk.i);
      assert ViewRow(d', sub, e.aggId) == ViewRow(PooledWrite(cfg, d, sub, m), sub, e.aggId);
    } else {
      assert ViewRow(d', sub, e.aggId) == ViewRow(d, sub, e.aggId);
    }
  }

  lemma NobodyJoins<S(!new), V(!new)>(
      cfg: Config<S, V>, d: World<V>, wk: Worker<V>, act: WorkerStep, sub: SubId, e: Event)
    requires wk.sub in cfg.subs && wk.i < |d.messages| && Handling(cfg, d, wk, act).Some?
    requires Processed(d, sub, e) && ViewVersion(d, sub, e.aggId) < e.version
    requires !Holds(d, wk, sub, e) && Falls(d, wk, sub, e)
    requires d.messages[wk.i].aggId == e.aggId && d.messages[wk.i].version == e.version ==> d.messages[wk.i] == e
    ensures var wk' := Handling(cfg, d, wk, act).value.1;
      wk'.Some? ==> !Holds(d, wk'.value, sub, e) && Falls(d, wk'.value, sub, e)
  {
  }

  lemma StepStaysDoomed<S(!new), V(!new)>(
      cfg: Config<S, V>, s: System<S, V>, step: Step, s': System<S, V>, sub: SubId, e: Event)
    requires cfg.pooled && SystemInv(cfg, s) && Take(cfg, s, step) == Some(s')
    requires Rebuilding(cfg, s.world, sub, e.aggId) && Rebuilt(cfg, s, sub, e.aggId) && Doomed(s, sub, e)
    ensures Doomed(s', sub, e)
  {
    match step
    case ByWriter(w, action) => WriterKeepsViews(cfg, s, w, action, s');
    case ByRelay(r, move) => RelayStaysDoomed(cfg, s, r, move, s', sub, e);
    case ByWorker(p, act) =>
      if !act.Receive? && !act.Crash? {
        WorkerStaysDoomed(cfg, s, p, act, s', sub, e);
      }
  }

  lemma RelayStaysDoomed<S(!new), V(!new)>(
      cfg: Config<S, V>, s: System<S, V>, r: Session, move: RelayStep, s': System<S, V>, sub: SubId, e: Event)
    requires SystemInv(cfg, s) && TakeRelay(cfg, s, r, move) == Some(s') && Doomed(s, sub, e)
    ensures Doomed(s', sub, e)
  {
    RelayKeepsViews(cfg, s, r, move, s');
    assert forall p :: p in s.workers ==> WorkerOk(cfg, s.world, s.workers[p]);
  }

  lemma WorkerStaysDoomed<S(!new), V(!new)>(
      cfg: Config<S, V>, s: System<S, V>, p: nat, act: WorkerStep, s': System<S, V>, sub: SubId, e: Event)
    requires cfg.pooled && SystemInv(cfg, s) && TakeWorker(cfg, s, p, act) == Some(s') && !act.Receive? && !act.Crash?
    requires Rebuilding(cfg, s.world, sub, e.aggId) && Rebuilt(cfg, s, sub, e.aggId) && Doomed(s, sub, e)
    ensures Doomed(s', sub, e)
  {
    WorkerMoved(cfg, s, p, act, s');
    HandlingStaysDoomed(cfg, s.world, s.workers[p], act, sub, e);
  }

  lemma {:induction false} DoomedForever<S(!new), V(!new)>(
      cfg: Config<S, V>, s: System<S, V>, run: seq<Step>, s': System<S, V>, sub: SubId, e: Event)
    requires cfg.pooled && SystemInv(cfg, s) && After(cfg, s, run) == Some(s') && Doomed(s, sub, e)
    requires Rebuilding(cfg, s'.world, sub, e.aggId) && Rebuilt(cfg, s, sub, e.aggId)
    ensures Doomed(s', sub, e)
    decreases |run|
  {
    if run != [] {
      var mid := Take(cfg, s, run[0]).value;
      StepKeepsInv(cfg, s, run[0], mid);
      RunKeepsInv(cfg, mid, run[1..], s');
      RebuildingBefore(cfg, mid.world, s'.world, sub, e.aggId);
      RebuildingBefore(cfg, s.world, mid.world, sub, e.aggId);
      StepRebuilds(cfg, s, run[0], mid, sub, e.aggId);
      StepStaysDoomed(cfg, s, run[0], mid, sub, e);
      DoomedForever(cfg, mid, run[1..], s', sub, e);
    }
  }

  lemma DoomedIsBehind<S(!new), V(!new)>(
      cfg: Config<S, V>, s: System<S, V>, run: seq<Step>, s': System<S, V>, sub: SubId, e: Event)
    requires cfg.pooled && SystemInv(cfg, s) && After(cfg, s, run) == Some(s') && Doomed(s, sub, e)
    requires Rebuilding(cfg, s'.world, sub, e.aggId) && Rebuilt(cfg, s, sub, e.aggId)
    ensures !UpToDate(cfg, s'.world, sub, e.aggId)
  {
    DoomedForever(cfg, s, run, s', sub, e);
    RunKeepsInv(cfg, s, run, s');
    RowAtVersion(s'.world.events, e);
  }

  // ----- Any other view catches up -----

  /** No event after the view is lost. */
  ghost predicate NoneLost<S, V>(s: System<S, V>, sub: SubId, a: AggId) {
    forall e :: e in s.world.events && e.aggId == a && ViewVersion(s.world, sub, a) < e.version ==> !Lost(s, sub, e)
  }

  /** The last lost event after the view, among the first n. */
  lemma {:induction false} LastLost<S(!new), V(!new)>(s: System<S, V>, sub: SubId, a: AggId, n: nat) returns (k: nat)
    requires n <= |Stream(s.world.events, a)| && 0 <= ViewVersion(s.world, sub, a)
    ensures k <= n && (k != 0 ==> ViewVersion(s.world, sub, a) < k && Lost(s, sub, Stream(s.world.events, a)[k - 1]))
    ensures forall j :: k <= j < n && ViewVersion(s.world, sub, a) <= j ==> !Lost(s, sub, Stream(s.world.events, a)[j])
    decreases n
  {
    if n <= ViewVersion(s.world, sub, a) {
      k := 0;
    } else if Lost(s, sub, Stream(s.world.events, a)[n - 1]) {
      k := n;
    } else {
      k := LastLost(s, sub, a, n - 1);
    }
  }

  /** A write that is under way is made. */
  lemma Land<S(!new), V(!new)>(cfg: Config<S, V>, s: System<S, V>, p: nat, sub: SubId, a: AggId)
      returns (run: seq<Step>, s': System<S, V>)
    requires cfg.pooled && SystemInv(cfg, s) && p in s.workers && Aims(s.world, s.workers[p], sub, a)
    requires Rebuilding(cfg, s.world, sub, a) && Rebuilt(cfg, s, sub, a)
    ensures After(cfg, s, run) == Some(s') && s'.world == s.world.(views := s'.world.views)
    ensures ViewVersion(s'.world, sub, a) == s.world.messages[s.workers[p].i].version
    ensures forall e :: Lost(s', sub, e) ==> Lost(s, sub, e)
  {
    var wk, d := s.workers[p], s.world;
    var m := d.messages[wk.i];
    var row := cfg.subs[sub].handle(ViewRow(d, sub, a), m);
    var d' := PooledWrite(cfg, d, sub, m);
    assert FindsRow(d, wk, sub, a);
    MessageAtVersion(cfg, d, wk.i);
    PooledRowIsFold(cfg, d, sub, wk.i);
    assert At(s, p, d, wk) == s;
    run := Act(cfg, s, p, [], d, wk, RunHandler, d', InTx(sub, wk.i, wk.version, Ran(row)));
    s' := At(s, p, d', InTx(sub, wk.i, wk.version, Ran(row)));
    StillHeld(s, p, s');
  }

  /** What a worker was past the check with, it still is. */
  lemma StillHeld<S, V>(s: System<S, V>, p: nat, s': System<S, V>)
    requires p in s.workers && p in s'.workers && s'.workers[p].InTx?
    requires s'.workers[p].sub == s.workers[p].sub && s'.workers[p].i == s.workers[p].i
    requires s'.workers == s.workers[p := s'.workers[p]]
    requires s'.world.events == s.world.events && s'.world.messages == s.world.messages
    requires s'.world.processed == s.world.processed
    ensures forall sub, e :: Lost(s', sub, e) ==> Lost(s, sub, e)
  {
    forall sub, e | Lost(s', sub, e)
      ensures Lost(s, sub, e)
    {
      forall q | q in s.workers
        ensures !Holds(s.world, s.workers[q], sub, e)
      {
        assert q in s'.workers && !Holds(s'.world, s'.workers[q], sub, e);
      }
    }
  }

  /** From a view that is not doomed there is a way past all lost events. */
  lemma LeapOver<S(!new), V(!new)>(cfg: Config<S, V>, s: System<S, V>, sub: SubId, a: AggId)
      returns (run: seq<Step>, s': System<S, V>)
    requires cfg.pooled && SystemInv(cfg, s) && Rebuilding(cfg, s.world, sub, a) && Rebuilt(cfg, s, sub, a)
    requires forall e :: e in s.world.events && e.aggId == a ==> !Doomed(s, sub, e)
    ensures After(cfg, s, run) == Some(s') && s'.world.events == s.world.events && NoneLost(s', sub, a)
  {
    var es := Stream(s.world.events, a);
    var k := LastLost(s, sub, a, |es|);
    if k == 0 {
      run, s' := [], s;
      AllVersions(cfg, s.world, a);
    } else {
      StreamMembers(s.world.events, a);
      var e := es[k - 1];
      assert e in es && !Doomed(s, sub, e);
      RowAtVersion(s.world.events, e);
      var p :| p in s.workers && !Falls(s.world, s.workers[p], sub, e);
      run, s' := Land(cfg, s, p, sub, a);
      AllVersions(cfg, s.world, a);
      forall x | x in s'.world.events && x.aggId == a && ViewVersion(s'.world, sub, a) < x.version
        ensures !Lost(s', sub, x)
      {
        assert es[x.version - 1] == x;
      }
    }
  }

  lemma AllVersions<S(!new), V(!new)>(cfg: Config<S, V>, d: World<V>, a: AggId)
    requires Inv(cfg, d) && Replayable(cfg)
    ensures forall e :: e in d.events && e.aggId == a ==>
      1 <= e.version <= |Stream(d.events, a)| && Stream(d.events, a)[e.version - 1] == e
  {
    forall e | e in d.events && e.aggId == a
      ensures 1 <= e.version <= |Stream(d.events, a)| && Stream(d.events, a)[e.version - 1] == e
    {
      RowAtVersion(d.events, e);
    }
  }

  // ----- One version after the other -----

  /** A worker past the idempotency check tries again, and passes the version gate. */
  lemma GateAgain<S(!new), V(!new)>(cfg: Config<S, V>, s: System<S, V>, p: nat, sub: SubId, e: Event)
      returns (run: seq<Step>, s': System<S, V>)
    requires sub in cfg.subs && p in s.workers && Holds(s.world, s.workers[p], sub, e)
    requires e.version == ViewVersion(s.world, sub, e.aggId) + 1
    ensures After(cfg, s, run) == Some(s')
    ensures s' == At(s, p, s.world, InTx(sub, s.workers[p].i, ViewVersion(s.world, sub, e.aggId), Begun))
  {
    var wk, d := s.workers[p], s.world;
    var v := ViewVersion(d, sub, e.aggId);
    assert At(s, p, d, wk) == s;
    run := [];
    if wk.InTx? {
      run := Act(cfg, s, p, run, d, wk, RetryHandling, d, Attempting(sub, wk.i));
    }
    run := Act(cfg, s, p, run, d, Attempting(sub, wk.i), ReadVersion, d, InTx(sub, wk.i, v, Begun));
    s' := At(s, p, d, InTx(sub, wk.i, v, Begun));
  }

  /** The next event is held by a worker: it tries again, and writes the view. */
  lemma AdvanceHeld<S(!new), V(!new)>(cfg: Config<S, V>, s: System<S, V>, p: nat, sub: SubId, e: Event)
      returns (run: seq<Step>, s': System<S, V>)
    requires cfg.pooled && SystemInv(cfg, s) && Rebuilding(cfg, s.world, sub, e.aggId) && Rebuilt(cfg, s, sub, e.aggId)
    requires p in s.workers && Holds(s.world, s.workers[p], sub, e)
    requires e.version == ViewVersion(s.world, sub, e.aggId) + 1
    ensures After(cfg, s, run) == Some(s') && s'.world == s.world.(views := s'.world.views)
    ensures ViewVersion(s'.world, sub, e.aggId) == e.version
    ensures forall x :: Lost(s', sub, x) ==> Lost(s, sub, x)
  {
    var mid;
    run, mid := GateAgain(cfg, s, p, sub, e);
    RunKeepsInv(cfg, s, run, mid);
    RunRebuilds(cfg, s, run, mid, sub, e.aggId);
    StillHeld(s, p, mid);
    var more;
    more, s' := Land(cfg, mid, p, sub, e.aggId);
    AfterConcat(cfg, s, run, mid, more, s');
    run := run + more;
  }

  /** With a drained outbox the message of an unprocessed event is waiting. */
  lemma UnprocessedIsWaiting<S(!new), V(!new)>(cfg: Config<S, V>, d: World<V>, sub: SubId, e: Event) returns (i: nat)
    requires BaseInv(cfg, d) && OutboxDrained(d) && e in d.events && e.aggType != "" && !Processed(d, sub, e)
    ensures i < |d.messages| && d.messages[i] == e && (i, sub) !in d.acked
  {
    var j :| 0 <= j < |d.events| && d.events[j] == e;
    assert OutboxEvents(d.outbox)[j] == e;
    assert d.outbox[j] in d.outbox;
    i :| i < |d.messages| && d.messages[i] == e;
  }

  /** The next event is unprocessed: it is sent, if need be, and delivered. */
  lemma AdvanceFresh<S(!new), V(!new)>(cfg: Config<S, V>, s: System<S, V>, sub: SubId, e: Event)
      returns (run: seq<Step>, s': System<S, V>)
    requires cfg.pooled && cfg.batchSize > 0 && SystemInv(cfg, s)
    requires Rebuilding(cfg, s.world, sub, e.aggId) && Rebuilt(cfg, s, sub, e.aggId)
    requires e in s.world.events && e.aggType == cfg.subs[sub].topic != "" && !Processed(s.world, sub, e)
    requires e.version == ViewVersion(s.world, sub, e.aggId) + 1
    ensures After(cfg, s, run) == Some(s') && s'.world.events == s.world.events
    ensures ViewVersion(s'.world, sub, e.aggId) == e.version
    ensures forall x :: Lost(s', sub, x) ==> x.id == e.id || Lost(s, sub, x)
  {
    var first, mid := Quiesce(cfg, s);
    RunKeepsInv(cfg, s, first, mid);
    var i := UnprocessedIsWaiting(cfg, mid.world, sub, e);
    var p := FreshWorker(mid.workers.Keys);
    var second := RedeliverIsRun(cfg, mid, p, sub, i);
    s' := mid.(world := Redeliver(cfg, mid.world, sub, i));
    AfterConcat(cfg, s, first, mid, second, s');
    run := first + second;
    assert ViewRow(mid.world, sub, e.aggId) == ViewRow(s.world, sub, e.aggId);
    DeliveryAdvances(cfg, mid.world, sub, i);
    OneMoreProcessed(cfg, s, s', sub, e);
  }

  lemma OneMoreProcessed<S(!new), V(!new)>(cfg: Config<S, V>, s: System<S, V>, s': System<S, V>, sub: SubId, e: Event)
    requires forall q :: q in s.workers ==> WorkerOk(cfg, s.world, s.workers[q])
    requires s'.workers == s.workers && s.world.messages <= s'.world.messages && s'.world.events == s.world.events
    requires s'.world.processed == s.world.processed + {(e.id, sub)}
    ensures forall x :: Lost(s', sub, x) ==> x.id == e.id || Lost(s, sub, x)
  {
    forall x | Lost(s', sub, x) && x.id != e.id
      ensures Lost(s, sub, x)
    {
      forall q | q in s.workers
        ensures !Holds(s.world, s.workers[q], sub, x)
      {
        assert WorkerOk(cfg, s.world, s.workers[q]) && q in s'.workers;
      }
    }
  }

  lemma DeliveryAdvances<S(!new), V(!new)>(cfg: Config<S, V>, d: World<V>, sub: SubId, i: nat)
    requires Inv(cfg, d) && i < |d.messages| && Suited(cfg, d, sub, d.messages[i].aggId)
    requires ViewIsFold(cfg, d, sub, d.messages[i].aggId) && !Processed(d, sub, d.messages[i])
    requires (i, sub) !in d.acked && d.messages[i].aggType == cfg.subs[sub].topic
    requires d.messages[i].version == ViewVersion(d, sub, d.messages[i].aggId) + 1
    ensures var d', e := Redeliver(cfg, d, sub, i), d.messages[i];
      && d'.events == d.events && d'.messages == d.messages && d'.processed == d.processed + {(e.id, sub)}
      && ViewVersion(d', sub, e.aggId) == e.version
  {
    var e := d.messages[i];
    RunCalmlyRows(cfg, d, sub, e);
    MessageAtVersion(cfg, d, i);
    FoldStep(cfg.subs[sub], Stream(d.events, e.aggId), e.version - 1);
    assert ViewRow(Redeliver(cfg, d, sub, i), sub, e.aggId) == ViewRow(RunCalmly(cfg, d, sub, e), sub, e.aggId);
  }

  lemma Advance<S(!new), V(!new)>(cfg: Config<S, V>, s: System<S, V>, sub: SubId, a: AggId)
      returns (run: seq<Step>, s': System<S, V>)
    requires cfg.pooled && cfg.batchSize > 0 && SystemInv(cfg, s) && Rebuilding(cfg, s.world, sub, a)
    requires Rebuilt(cfg, s, sub, a) && OnTopic(cfg, s.world, sub, a) && NoneLost(s, sub, a)
    requires ViewVersion(s.world, sub, a) < |Stream(s.world.events, a)|
    ensures After(cfg, s, run) == Some(s') && s'.world.events == s.world.events && NoneLost(s', sub, a)
    ensures ViewVersion(s'.world, sub, a) == ViewVersion(s.world, sub, a) + 1
  {
    var e := Stream(s.world.events, a)[ViewVersion(s.world, sub, a)];
    StreamMembers(s.world.events, a);
    assert e in Stream(s.world.events, a);
    AllVersions(cfg, s.world, a);
    if Processed(s.world, sub, e) {
      assert !Lost(s, sub, e);
      var p :| p in s.workers && Holds(s.world, s.workers[p], sub, e);
      run, s' := AdvanceHeld(cfg, s, p, sub, e);
    } else {
      run, s' := AdvanceFresh(cfg, s, sub, e);
      forall x | x in s'.world.events && x.aggId == a && e.version < x.version
        ensures !Lost(s', sub, x)
      {
        if x.id == e.id {
          SameId(s.world.events, x, e);
        }
      }
    }
  }

  lemma {:induction false} AdvanceToEnd<S(!new), V(!new)>(cfg: Config<S, V>, s: System<S, V>, sub: SubId, a: AggId)
      returns (run: seq<Step>, s': System<S, V>)
    requires cfg.pooled && cfg.batchSize > 0 && SystemInv(cfg, s) && Rebuilding(cfg, s.world, sub, a)
    requires Rebuilt(cfg, s, sub, a) && OnTopic(cfg, s.world, sub, a) && NoneLost(s, sub, a)
    ensures After(cfg, s, run) == Some(s') && s'.world.events == s.world.events
    ensures Rebuilt(cfg, s', sub, a) && ViewVersion(s'.world, sub, a) == |Stream(s.world.events, a)|
    decreases |Stream(s.world.events, a)| - ViewVersion(s.world, sub, a)
  {
    if ViewVersion(s.world, sub, a) == |Stream(s.world.events, a)| {
      run, s' := [], s;
    } else {
      var first, mid := Advance(cfg, s, sub, a);
      RunKeepsInv(cfg, s, first, mid);
      RunRebuilds(cfg, s, first, mid, sub, a);
      var more;
      more, s' := AdvanceToEnd(cfg, mid, sub, a);
      AfterConcat(cfg, s, first, mid, more, s');
      run := first + more;
    }
  }

  /** A view at the end of its stream is live. */
  lemma EndIsLive<S(!new), V(!new)>(cfg: Config<S, V>, d: World<V>, sub: SubId, a: AggId)
    requires Inv(cfg, d) && Suited(cfg, d, sub, a) && ViewIsFold(cfg, d, sub, a)
    requires ViewVersion(d, sub, a) == |Stream(d.events, a)|
    ensures Live(cfg, d, sub, a)
  {
    AllVersions(cfg, d, a);
  }

  lemma Recovers<S(!new), V(!new)>(cfg: Config<S, V>, s: System<S, V>, sub: SubId, a: AggId)
      returns (run: seq<Step>, s': System<S, V>)
    requires cfg.pooled && cfg.batchSize > 0 && Reachable(cfg, s) && Rebuilding(cfg, s.world, sub, a)
    requires cfg.subs[sub].topic == cfg.spec.aggType != ""
    requires forall e :: e in s.world.events && e.aggId == a ==> !Doomed(s, sub, e)
    ensures After(cfg, s, run) == Some(s') && s'.world.events == s.world.events && UpToDate(cfg, s'.world, sub, a)
  {
    ReachableInv(cfg, s);
    PooledPrefixConsistency(cfg, s, sub, a);
    AllOnTopic(cfg, s, sub);
    assert OnTopic(cfg, s.world, sub, a);
    var first, s1 := LeapOver(cfg, s, sub, a);
    RunKeepsInv(cfg, s, first, s1);
    RunRebuilds(cfg, s, first, s1, sub, a);
    var second, s2 := AdvanceToEnd(cfg, s1, sub, a);
    AfterConcat(cfg, s, first, s1, second, s2);
    ReachableAfter(cfg, s, first + second, s2);
    ReachableInv(cfg, s2);
    EndIsLive(cfg, s2.world, sub, a);
    var third;
    third, s' := AlwaysCatchesUp(cfg, s2, sub);
    run := first + second + third;
    AfterConcat(cfg, s, first + second, s2, third, s');
  }

  /** Some run ends with the view up to date, with or without new events. */
  ghost predicate CanCatchUp<S(!new), V(!new)>(cfg: Config<S, V>, s: System<S, V>, sub: SubId, a: AggId)
    requires sub in cfg.subs
  {
    exists run, s' ::
      After(cfg, s, run) == Some(s') && Rebuilding(cfg, s'.world, sub, a) && UpToDate(cfg, s'.world, sub, a)
  }

  /** From a reachable state with processes interrupted anywhere, the view of a stream
      that a pooled handler rebuilds can still become up to date, if and only if it is
      not doomed. */
  lemma CatchesUpIff<S(!new), V(!new)>(cfg: Config<S, V>, s: System<S, V>, sub: SubId, a: AggId)
    requires cfg.pooled && cfg.batchSize > 0 && Reachable(cfg, s) && Rebuilding(cfg, s.world, sub, a)
    requires cfg.subs[sub].topic == cfg.spec.aggType != ""
    ensures CanCatchUp(cfg, s, sub, a) <==> forall e :: e in s.world.events && e.aggId == a ==> !Doomed(s, sub, e)
  {
    ReachableInv(cfg, s);
    PooledPrefixConsistency(cfg, s, sub, a);
    if e :| e in s.world.events && e.aggId == a && Doomed(s, sub, e) {
      forall run, s' | After(cfg, s, run) == Some(s') && Rebuilding(cfg, s'.world, sub, a)
        ensures !UpToDate(cfg, s'.world, sub, a)
      {
        DoomedIsBehind(cfg, s, run, s', sub, e);
      }
    } else {
      var run, s' := Recovers(cfg, s, sub, a);
      assert Rebuilding(cfg, s'.world, sub, a);
    }
  }
}
