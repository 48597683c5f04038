/** One worker at a time: the deployment in which handlers that write through the pool
    are safe.  As long as no two workers of a subscriber are past the idempotency check
    with events of the same aggregate, an outdated version read cannot happen, and only
    a hidden failure can leave a processed event out of the view. */
module Sequential {
  import opened Events
  import opened World
  import opened Saving
  import opened Projecting
  import opened Machine
  import opened Runs
  import opened Convergence
  import opened Overwriting
  import opened Pooling

  predicate Inside<V>(d: World<V>, wk: Worker<V>, sub: SubId, a: AggId) {
    (wk.Attempting? || wk.InTx?) && wk.sub == sub && wk.i < |d.messages| && d.messages[wk.i].aggId == a
  }

  ghost predicate Exclusive<S, V>(s: System<S, V>, sub: SubId, a: AggId) {
    forall p, q :: p in s.workers && q in s.workers ==>
      Inside(s.world, s.workers[p], sub, a) && Inside(s.world, s.workers[q], sub, a) ==> p == q
  }

  /** In no state of the run are two workers inside at once. */
  ghost predicate OneAtATime<S(!new), V(!new)>(
      cfg: Config<S, V>, s: System<S, V>, run: seq<Step>, sub: SubId, a: AggId)
    decreases |run|
  {
    Exclusive(s, sub, a) && (run == [] ||
      (Take(cfg, s, run[0]).Some? ==> OneAtATime(cfg, Take(cfg, s, run[0]).value, run[1..], sub, a)))
  }

  /** The worker's version read is not outdated, and its event is in the view before it
      is marked. */
  ghost predicate InStep<V>(d: World<V>, wk: Worker<V>, sub: SubId, a: AggId) {
    Busy(d, wk, sub, a) ==>
      var v := ViewVersion(d, sub, a);
      && (wk.stage.Begun? ==> wk.version == v)
      && !wk.stage.Hidden?
      && (wk.stage.Ran? || wk.stage.Marked? ==> d.messages[wk.i].version <= v)
  }

  ghost predicate AllInStep<S(!new), V(!new)>(cfg: Config<S, V>, s: System<S, V>, sub: SubId, a: AggId) {
    Live(cfg, s.world, sub, a) && forall p :: p in s.workers ==> InStep(s.world, s.workers[p], sub, a)
  }

  lemma HandlingStaysInStep<S(!new), V(!new)>(
      cfg: Config<S, V>, d: World<V>, wk: Worker<V>, act: WorkerStep, sub: SubId, a: AggId)
    requires cfg.pooled && !cfg.hides && Inv(cfg, d) && WorkerOk(cfg, d, wk) && Handling(cfg, d, wk, act).Some?
    requires Live(cfg, d, sub, a) && InStep(d, wk, sub, a)
    ensures var (d', wk') := Handling(cfg, d, wk, act).value;
      && Live(cfg, d', sub, a) && d'.messages == d.messages
      && (wk'.Some? ==> InStep(d', wk'.value, sub, a))
      && (Busy(d, wk, sub, a) || ViewVersion(d', sub, a) == ViewVersion(d, sub, a))
  {
    PooledViews(cfg, d, wk, act);
    if act.RunHandler? && Busy(d, wk, sub, a) {
      RunInStep(cfg, d, wk, sub, a);
    } else {
      OtherwiseInStep(cfg, d, wk, act, sub, a);
    }
  }

  lemma OtherwiseInStep<S(!new), V(!new)>(
      cfg: Config<S, V>, d: World<V>, wk: Worker<V>, act: WorkerStep, sub: SubId, a: AggId)
    requires cfg.pooled && !cfg.hides && BaseInv(cfg, d) && WorkerOk(cfg, d, wk) && Handling(cfg, d, wk, act).Some?
    requires Live(cfg, d, sub, a) && InStep(d, wk, sub, a) && !(act.RunHandler? && Busy(d, wk, sub, a))
    ensures var (d', wk') := Handling(cfg, d, wk, act).value;
      && Live(cfg, d', sub, a) && ViewRow(d', sub, a) == ViewRow(d, sub, a)
      && (wk'.Some? ==> InStep(d', wk'.value, sub, a))
  {
    PooledViews(cfg, d, wk, act);
    assert ViewRow(Handling(cfg, d, wk, act).value.0, sub, a) == ViewRow(d, sub, a);
    MarksInStep(cfg, d, wk, act, sub, a);
  }

  lemma RunInStep<S(!new), V(!new)>(cfg: Config<S, V>, d: World<V>, wk: Worker<V>, sub: SubId, a: AggId)
    requires cfg.pooled && Inv(cfg, d) && WorkerOk(cfg, d, wk) && Handling(cfg, d, wk, RunHandler).Some?
    requires Live(cfg, d, sub, a) && InStep(d, wk, sub, a) && Busy(d, wk, sub, a)
    ensures var d' := PooledWrite(cfg, d, sub, d.messages[wk.i]);
      Live(cfg, d', sub, a) && ViewVersion(d', sub, a) == d.messages[wk.i].version
  {
    var m := d.messages[wk.i];
    var d' := PooledWrite(cfg, d, sub, m);
    MessageAtVersion(cfg, d, wk.i);
    FoldStep(cfg.subs[sub], Stream(d.events, a), m.version - 1);
    assert ViewRow(d', sub, a) == ViewFold(cfg.subs[sub], Stream(d.events, a)[..m.version]);
  }

  /** Marks are set only on what the view has. */
  lemma MarksInStep<S(!new), V(!new)>(
      cfg: Config<S, V>, d: World<V>, wk: Worker<V>, act: WorkerStep, sub: SubId, a: AggId)
    requires cfg.pooled && BaseInv(cfg, d) && WorkerOk(cfg, d, wk) && Handling(cfg, d, wk, act).Some?
    requires ProcessedAreSeen(d, sub, a) && InStep(d, wk, sub, a)
    requires ViewRow(Handling(cfg, d, wk, act).value.0, sub, a) == ViewRow(d, sub, a)
    ensures ProcessedAreSeen(Handling(cfg, d, wk, act).value.0, sub, a)
  {
    PooledViews(cfg, d, wk, act);
    var d', m := Handling(cfg, d, wk, act).value.0, d.messages[wk.i];
    assert m in d.messages;
    if act.CommitHandling? {
      ProjectionMerge(d, wk.stage.writes, wk.sub, m, None);
    }
    forall x | x in d'.events && x.aggId == a && (x.id, sub) in d'.processed
      ensures x.version <= ViewVersion(d', sub, a)
    {
      if x.id == m.id {
        SameId(d.events, x, m);
      }
    }
  }

  lemma WorkerStaysInStep<S(!new), V(!new)>(
      cfg: Config<S, V>, s: System<S, V>, p: nat, act: WorkerStep, s': System<S, V>, sub: SubId, a: AggId)
    requires cfg.pooled && !cfg.hides && SystemInv(cfg, s) && TakeWorker(cfg, s, p, act) == Some(s')
    requires AllInStep(cfg, s, sub, a) && Exclusive(s, sub, a)
    ensures AllInStep(cfg, s', sub, a)
  {
    if !act.Receive? && !act.Crash? {
      WorkerMoved(cfg, s, p, act, s');
      HandlingStaysInStep(cfg, s.world, s.workers[p], act, sub, a);
      forall q | q in s'.workers
        ensures InStep(s'.world, s'.workers[q], sub, a)
      {
        if q != p {
          assert InStep(s.world, s.workers[q], sub, a);
          assert Inside(s.world, s.workers[q], sub, a) ==> !Inside(s.world, s.workers[p], sub, a);
        }
      }
    }
  }

  /** Others leave views and marks alone; new events are not processed yet. */
  lemma OthersStayInStep<S(!new), V(!new)>(
      cfg: Config<S, V>, s: System<S, V>, s': System<S, V>, sub: SubId, a: AggId)
    requires SystemInv(cfg, s) && SystemInv(cfg, s') && AllInStep(cfg, s, sub, a) && Suited(cfg, s'.world, sub, a)
    requires s'.world.views == s.world.views && s'.world.processed == s.world.processed && s'.workers == s.workers
    requires s.world.events <= s'.world.events && s.world.messages <= s'.world.messages
    ensures AllInStep(cfg, s', sub, a)
  {
    StreamPrefix(s.world.events, s'.world.events, a);
    var k := ViewVersion(s.world, sub, a);
    assert ViewRow(s'.world, sub, a) == ViewRow(s.world, sub, a);
    assert Stream(s'.world.events, a)[..k] == Stream(s.world.events, a)[..k];
    forall x | x in s'.world.events && x.aggId == a && (x.id, sub) in s'.world.processed
      ensures x.version <= k
    {
      KnownId(s.world.events, s'.world.events, x);
    }
    forall q | q in s'.workers
      ensures InStep(s'.world, s'.workers[q], sub, a)
    {
      assert InStep(s.world, s.workers[q], sub, a) && WorkerOk(cfg, s.world, s.workers[q]);
    }
  }

  lemma StepStaysInStep<S(!new), V(!new)>(
      cfg: Config<S, V>, s: System<S, V>, step: Step, s': System<S, V>, sub: SubId, a: AggId)
    requires cfg.pooled && !cfg.hides && SystemInv(cfg, s) && Take(cfg, s, step) == Some(s')
    requires AllInStep(cfg, s, sub, a) && Exclusive(s, sub, a) && Suited(cfg, s'.world, sub, a)
    ensures AllInStep(cfg, s', sub, a)
  {
    StepKeepsInv(cfg, s, step, s');
    match step
    case ByWriter(w, action) =>
      WriterKeepsViews(cfg, s, w, action, s');
      OthersStayInStep(cfg, s, s', sub, a);
    case ByRelay(r, move) =>
      RelayKeepsViews(cfg, s, r, move, s');
      OthersStayInStep(cfg, s, s', sub, a);
    case ByWorker(p, act) =>
      WorkerStaysInStep(cfg, s, p, act, s', sub, a);
  }

  lemma SuitedBefore<S(!new), V(!new)>(cfg: Config<S, V>, d: World<V>, d': World<V>, sub: SubId, a: AggId)
    requires d.events <= d'.events && Suited(cfg, d', sub, a)
    ensures Suited(cfg, d, sub, a)
  {
    StreamPrefix(d.events, d'.events, a);
    FollowsPrefix(cfg.subs[sub], Stream(d.events, a), Stream(d'.events, a));
  }

  lemma {:induction false} RunStaysInStep<S(!new), V(!new)>(
      cfg: Config<S, V>, s: System<S, V>, run: seq<Step>, s': System<S, V>, sub: SubId, a: AggId)
    requires cfg.pooled && !cfg.hides && SystemInv(cfg, s) && After(cfg, s, run) == Some(s')
    requires OneAtATime(cfg, s, run, sub, a) && AllInStep(cfg, s, sub, a) && Suited(cfg, s'.world, sub, a)
    ensures AllInStep(cfg, s', sub, a)
    decreases |run|
  {
    if run != [] {
      var mid := Take(cfg, s, run[0]).value;
      StepKeepsInv(cfg, s, run[0], mid);
      RunKeepsInv(cfg, mid, run[1..], s');
      SuitedBefore(cfg, mid.world, s'.world, sub, a);
      StepStaysInStep(cfg, s, run[0], mid, sub, a);
      RunStaysInStep(cfg, mid, run[1..], s', sub, a);
    }
  }

  /** Pooled handlers that hide nothing, one worker at a time: every view is a fold of its
      stream and has every event that is processed, and so it can always catch up. */
  lemma OneAtATimeIsLive<S(!new), V(!new)>(
      cfg: Config<S, V>, run: seq<Step>, s: System<S, V>, sub: SubId, a: AggId)
    requires !(cfg.pooled && cfg.hides) && After(cfg, Start<S, V>(), run) == Some(s) && Suited(cfg, s.world, sub, a)
    requires cfg.pooled ==> OneAtATime(cfg, Start(), run, sub, a)
    ensures Live(cfg, s.world, sub, a)
  {
    StartInv(cfg);
    RunKeepsInv(cfg, Start(), run, s);
    if cfg.pooled {
      SuitedBefore(cfg, InitialWorld<V>(), s.world, sub, a);
      assert ViewRow(InitialWorld<V>(), sub, a) == None;
      RunStaysInStep(cfg, Start(), run, s, sub, a);
    } else {
      FollowedIsLive(cfg, s.world, sub, a);
    }
  }

  // ----- And exactly then -----

  lemma WorkerMovesAlone<S(!new), V(!new)>(
      cfg: Config<S, V>, s: System<S, V>, p: nat, act: WorkerStep, s': System<S, V>, sub: SubId, a: AggId)
    requires SystemInv(cfg, s) && TakeWorker(cfg, s, p, act) == Some(s')
    requires forall q :: q in s.workers && q != p ==> !Inside(s.world, s.workers[q], sub, a)
    ensures forall q :: q in s'.workers && q != p ==> !Inside(s'.world, s'.workers[q], sub, a)
  {
    WorkerKeepsWriteSide(cfg, s, p, act, s');
    assert forall q :: q in s'.workers && q != p ==> q in s.workers && s'.workers[q] == s.workers[q];
  }

  lemma {:induction false} AloneIsExclusive<S(!new), V(!new)>(
      cfg: Config<S, V>, s: System<S, V>, run: seq<Step>, p: nat, sub: SubId, a: AggId)
    requires SystemInv(cfg, s) && OnlyBy(run, p)
    requires forall q :: q in s.workers && q != p ==> !Inside(s.world, s.workers[q], sub, a)
    ensures OneAtATime(cfg, s, run, sub, a)
    decreases |run|
  {
    if run != [] && Take(cfg, s, run[0]).Some? {
      var mid := Take(cfg, s, run[0]).value;
      assert run[0] in run && run[0] == ByWorker(p, run[0].act);
      StepKeepsInv(cfg, s, run[0], mid);
      WorkerMovesAlone(cfg, s, p, run[0].act, mid, sub, a);
      AloneIsExclusive(cfg, mid, run[1..], p, sub, a);
    }
  }

  /** Pooled handlers, one worker at a time: from a state in which a live view waits for
      an event and nobody is inside, processed events stay within the view in all runs
      if and only if handlers hide no failure. */
  lemma OneAtATimeIff<S(!new), V(!new)>(cfg: Config<S, V>, s: System<S, V>, p: nat, sub: SubId, i: nat)
    requires cfg.pooled && SystemInv(cfg, s) && p !in s.workers && Next(cfg, s.world, sub, i)
    requires Live(cfg, s.world, sub, s.world.messages[i].aggId)
    requires forall q :: q in s.workers ==> !Inside(s.world, s.workers[q], sub, s.world.messages[i].aggId)
    ensures !cfg.hides <==> forall run, s' :: After(cfg, s, run) == Some(s') ==>
      StaysWithin(cfg, s, run, s', sub, s.world.messages[i].aggId)
  {
    var e := s.world.messages[i];
    if cfg.hides {
      var run, s' := HiddenFailureRun(cfg, s, p, sub, i);
      AloneIsExclusive(cfg, s, run, p, sub, e.aggId);
      assert !StaysWithin(cfg, s, run, s', sub, e.aggId);
    } else {
      forall run, s' | After(cfg, s, run) == Some(s')
        ensures StaysWithin(cfg, s, run, s', sub, e.aggId)
      {
        if OneAtATime(cfg, s, run, sub, e.aggId) && Suited(cfg, s'.world, sub, e.aggId) {
          RunStaysInStep(cfg, s, run, s', sub, e.aggId);
        }
      }
    }
  }

  /** If workers took turns in the run, no processed event is beyond the view after it. */
  ghost predicate StaysWithin<S(!new), V(!new)>(
      cfg: Config<S, V>, s: System<S, V>, run: seq<Step>, s': System<S, V>, sub: SubId, a: AggId) {
    OneAtATime(cfg, s, run, sub, a) && Suited(cfg, s'.world, sub, a) ==> ProcessedAreSeen(s'.world, sub, a)
  }
}
