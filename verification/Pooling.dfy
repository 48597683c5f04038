/** What happens with handlers that do not keep to the contract.  The sample's
    projection writes through the connection pool
    (sample/query/repository/repository.go:51,67): then a transaction begun on an
    outdated read is not harmless any more.  It also hides failed writes
    (sample/query/projection/projection.go:55-58,79-82).  Either way an event ends up
    processed that the view does not have, and the view is stuck. */
module Pooling {
  import opened Events
  import opened World
  import opened Projecting
  import opened Machine
  import opened Runs
  import opened Convergence
  import opened Gaps

  /** The handler leaves the version of the event, also on a newer row, as the
      upsert and the update of the sample's view repository do. */
  ghost predicate Overwrites<V(!new)>(sub: Subscription<V>, e: Event) {
    forall row: Option<Row<V>> {:trigger sub.handle(row, e)} ::
      row.Some? || e.version == 1 ==> sub.handle(row, e).Some? && sub.handle(row, e).value.version == e.version
  }

  /** Message i is waiting, unprocessed, and next for its view. */
  ghost predicate Next<S(!new), V(!new)>(cfg: Config<S, V>, d: World<V>, sub: SubId, i: nat) {
    && sub in cfg.subs && i < |d.messages| && (i, sub) !in d.acked
    && d.messages[i].aggType == cfg.subs[sub].topic
    && !Processed(d, sub, d.messages[i])
    && d.messages[i].version == ViewVersion(d, sub, d.messages[i].aggId) + 1
  }

  /** Two consecutive un-acknowledged, unprocessed events, the first one next. */
  ghost predicate NextTwo<S(!new), V(!new)>(cfg: Config<S, V>, d: World<V>, sub: SubId, i: nat, j: nat) {
    && Next(cfg, d, sub, i)
    && i != j && j < |d.messages| && (j, sub) !in d.acked && !Processed(d, sub, d.messages[j])
    && d.messages[j].aggType == cfg.subs[sub].topic && d.messages[j].aggId == d.messages[i].aggId
    && d.messages[j].version == d.messages[i].version + 1 && d.messages[j].id != d.messages[i].id
  }

  /** The handler writes both, in whatever order, and the view exists if it has to. */
  ghost predicate Writable<S(!new), V(!new)>(cfg: Config<S, V>, d: World<V>, sub: SubId, i: nat, j: nat)
    requires NextTwo(cfg, d, sub, i, j)
  {
    && Overwrites(cfg.subs[sub], d.messages[i]) && Overwrites(cfg.subs[sub], d.messages[j])
    && (ViewRow(d, sub, d.messages[i].aggId).Some? || d.messages[i].version == 1)
  }

  /** On every stream that the handler could follow, what is processed is in the view. */
  ghost predicate MarksWithinViews<S(!new), V(!new)>(cfg: Config<S, V>, d: World<V>) {
    forall sub, a {:trigger ProcessedAreSeen(d, sub, a)} ::
      sub in cfg.subs && Follows(cfg.subs[sub], Stream(d.events, a)) ==> ProcessedAreSeen(d, sub, a)
  }

  // ----- Handlers that write through the pool -----

  lemma PooledDelivery<S(!new), V(!new)>(cfg: Config<S, V>, d: World<V>, sub: SubId, i: nat)
    requires cfg.pooled && BaseInv(cfg, d) && Next(cfg, d, sub, i) && Overwrites(cfg.subs[sub], d.messages[i])
    requires ViewRow(d, sub, d.messages[i].aggId).Some? || d.messages[i].version == 1
    ensures var d', e := Redeliver(cfg, d, sub, i), d.messages[i];
      && d'.messages == d.messages && d'.events == d.events
      && d'.processed == d.processed + {(e.id, sub)} && d'.acked == d.acked + {(i, sub)}
      && ViewRow(d', sub, e.aggId).Some? && ViewVersion(d', sub, e.aggId) == e.version
  {
    var e := d.messages[i];
    ProjectionMerge(PooledWrite(cfg, d, sub, e), MarkWrites(sub, e), sub, e, None);
  }

  /** Worker q delivers both messages while worker p is about to run its handler. */
  lemma Overtake<S(!new), V(!new)>(
      cfg: Config<S, V>, s: System<S, V>, p: nat, q: nat, sub: SubId, i: nat, j: nat, wk: Worker<V>)
      returns (run: seq<Step>, d: World<V>)
    requires cfg.pooled && Inv(cfg, s.world) && p != q && q !in s.workers
    requires NextTwo(cfg, s.world, sub, i, j) && Writable(cfg, s.world, sub, i, j)
    ensures After(cfg, At(s, p, s.world, wk), run) == Some(At(s, p, d, wk))
    ensures d.messages == s.world.messages && d.events == s.world.events
    ensures ViewRow(d, sub, s.world.messages[i].aggId).Some? && Processed(d, sub, s.world.messages[j])
  {
    var begun := At(s, p, s.world, wk);
    var d1 := Redeliver(cfg, s.world, sub, i);
    PooledDelivery(cfg, s.world, sub, i);
    RedeliverEffect(cfg, s.world, sub, i);
    PooledDelivery(cfg, d1, sub, j);
    d := Redeliver(cfg, d1, sub, j);
    var first := RedeliverIsRun(cfg, begun, q, sub, i);
    var second := RedeliverIsRun(cfg, At(s, p, d1, wk), q, sub, j);
    run := first + second;
    AfterConcat(cfg, begun, first, At(s, p, d1, wk), second, At(s, p, d, wk));
  }

  /** Whenever two consecutive events wait for two idle workers, a pooled handler
      can be made to take the view back: one worker reads the version, is
      overtaken twice by the other, and only then runs its handler.  The later
      event ends up processed while the view shows the version before it. */
  lemma PooledHandlerRegresses<S(!new), V(!new)>(
      cfg: Config<S, V>, s: System<S, V>, p: nat, q: nat, sub: SubId, i: nat, j: nat)
      returns (run: seq<Step>, s': System<S, V>)
    requires cfg.pooled && Inv(cfg, s.world) && p != q && p !in s.workers && q !in s.workers
    requires NextTwo(cfg, s.world, sub, i, j) && Writable(cfg, s.world, sub, i, j)
    ensures After(cfg, s, run) == Some(s')
    ensures s'.world.events == s.world.events && s'.world.messages == s.world.messages
    ensures Processed(s'.world, sub, s.world.messages[j])
    ensures ViewVersion(s'.world, sub, s.world.messages[j].aggId) == s.world.messages[j].version - 1
    ensures p in s'.workers && s'.workers - {p} == s.workers
    ensures s'.workers[p].InTx? && s'.workers[p].stage.Ran? && s'.workers[p].i == i
  {
    var before, d := GatedAndOvertaken(cfg, s, p, q, sub, i, j);
    run, s' := LateRun(cfg, s, p, before, d, sub, i);
    assert s'.workers - {p} == s.workers;
  }

  lemma GatedAndOvertaken<S(!new), V(!new)>(
      cfg: Config<S, V>, s: System<S, V>, p: nat, q: nat, sub: SubId, i: nat, j: nat)
      returns (run: seq<Step>, d: World<V>)
    requires cfg.pooled && Inv(cfg, s.world) && p != q && p !in s.workers && q !in s.workers
    requires NextTwo(cfg, s.world, sub, i, j) && Writable(cfg, s.world, sub, i, j)
    ensures After(cfg, s, run) == Some(At(s, p, d, InTx(sub, i, s.world.messages[i].version - 1, Begun)))
    ensures d.messages == s.world.messages && d.events == s.world.events
    ensures ViewRow(d, sub, s.world.messages[i].aggId).Some? && Processed(d, sub, s.world.messages[j])
  {
    var wk: Worker<V> := InTx(sub, i, s.world.messages[i].version - 1, Begun);
    var first := Gated(cfg, s, p, sub, i);
    var more;
    more, d := Overtake(cfg, s, p, q, sub, i, j, wk);
    run := first + more;
    AfterConcat(cfg, s, first, At(s, p, s.world, wk), more, At(s, p, d, wk));
  }

  /** The overtaken worker runs its handler on the row it finds. */
  lemma LateRun<S(!new), V(!new)>(
      cfg: Config<S, V>, s: System<S, V>, p: nat, before: seq<Step>, d: World<V>, sub: SubId, i: nat)
      returns (run: seq<Step>, s': System<S, V>)
    requires cfg.pooled && sub in cfg.subs && i < |d.messages| && Overwrites(cfg.subs[sub], d.messages[i])
    requires ViewRow(d, sub, d.messages[i].aggId).Some?
    requires After(cfg, s, before) == Some(At(s, p, d, InTx(sub, i, d.messages[i].version - 1, Begun)))
    ensures After(cfg, s, run) == Some(s') && s'.world == d.(views := s'.world.views)
    ensures ViewVersion(s'.world, sub, d.messages[i].aggId) == d.messages[i].version
    ensures exists row :: s' == At(s, p, s'.world, InTx(sub, i, d.messages[i].version - 1, Ran(row)))
  {
    var e := d.messages[i];
    var row := cfg.subs[sub].handle(ViewRow(d, sub, e.aggId), e);
    var d' := PooledWrite(cfg, d, sub, e);
    run := Act(cfg, s, p, before, d, InTx(sub, i, e.version - 1, Begun), RunHandler,
      d', InTx(sub, i, e.version - 1, Ran(row)));
    s' := At(s, p, d', InTx(sub, i, e.version - 1, Ran(row)));
  }

  /** And there it stays: the regressed view is stuck, unless another worker is just
      past the idempotency check with an event of the same stream. */
  lemma RegressedViewIsStuck<S(!new), V(!new)>(
      cfg: Config<S, V>, s: System<S, V>, p: nat, q: nat, sub: SubId, i: nat, j: nat)
      returns (run: seq<Step>, s': System<S, V>)
    requires Replayable(cfg) && cfg.pooled && SystemInv(cfg, s) && p != q && p !in s.workers && q !in s.workers
    requires NextTwo(cfg, s.world, sub, i, j) && Writable(cfg, s.world, sub, i, j)
    requires forall x :: x in s.workers ==> ClearWorker(cfg, s.world, s.workers[x], sub, s.world.messages[j])
    ensures After(cfg, s, run) == Some(s') && Gap(s'.world, sub, s.world.messages[j])
    ensures forall more, s'' :: After(cfg, s', more) == Some(s'') ==>
      ViewVersion(s''.world, sub, s.world.messages[j].aggId) == s.world.messages[j].version - 1
  {
    run, s' := PooledHandlerRegresses(cfg, s, p, q, sub, i, j);
    var e := s.world.messages[j];
    RunKeepsInv(cfg, s, run, s');
    forall x | x in s'.workers
      ensures ClearWorker(cfg, s'.world, s'.workers[x], sub, e)
    {
      if x != p {
        assert x in s'.workers - {p};
        assert ClearWorker(cfg, s.world, s.workers[x], sub, e);
      }
    }
    assert e in s.world.messages;
    forall more, s'' | After(cfg, s', more) == Some(s'')
      ensures ViewVersion(s''.world, sub, e.aggId) == e.version - 1
    {
      StuckForever(cfg, s', more, s'', sub, e);
    }
  }

  // ----- Handlers that hide failures -----

  /** A handler whose write fails says nil, and the mark is committed alone. */
  lemma HiddenFailureRun<S(!new), V(!new)>(cfg: Config<S, V>, s: System<S, V>, p: nat, sub: SubId, i: nat)
      returns (run: seq<Step>, s': System<S, V>)
    requires cfg.pooled && cfg.hides && Inv(cfg, s.world) && p !in s.workers && Next(cfg, s.world, sub, i)
    ensures After(cfg, s, run) == Some(s') && Gap(s'.world, sub, s.world.messages[i])
    ensures s'.workers == s.workers && s'.world.events == s.world.events && s'.world.messages == s.world.messages
    ensures s'.world.views == s.world.views && s'.world.acked == s.world.acked + {(i, sub)} && OnlyBy(run, p)
  {
    var d, e := s.world, s.world.messages[i];
    var v := e.version - 1;
    run := Gated(cfg, s, p, sub, i);
    run := Act(cfg, s, p, run, d, InTx(sub, i, v, Begun), HideFailure, d, InTx(sub, i, v, Hidden));
    run := MarkedAndCommitted(cfg, s, p, run, d, sub, i, v, Hidden);
    var d' := Merge(d, MarkWrites(sub, e));
    ProjectionMerge(d, MarkWrites(sub, e), sub, e, None);
    run := Settled(cfg, s, p, run, d', sub, i, true);
    s' := s.(world := d'.(acked := d'.acked + {(i, sub)}));
    assert e in d.messages;
  }

  /** After one hidden failure, acknowledged like a success, the view is stuck: it stays
      as it is along every run of the machine, unless another worker was just past the
      idempotency check with an event of the same stream. */
  lemma HiddenFailureStopsView<S(!new), V(!new)>(cfg: Config<S, V>, s: System<S, V>, p: nat, sub: SubId, i: nat)
      returns (run: seq<Step>, s': System<S, V>)
    requires Replayable(cfg) && cfg.pooled && cfg.hides && SystemInv(cfg, s)
    requires p !in s.workers && Next(cfg, s.world, sub, i)
    requires forall x :: x in s.workers ==> ClearWorker(cfg, s.world, s.workers[x], sub, s.world.messages[i])
    ensures After(cfg, s, run) == Some(s')
    ensures Gap(s'.world, sub, s.world.messages[i]) && (i, sub) in s'.world.acked
    ensures forall more, s'' :: After(cfg, s', more) == Some(s'') ==>
      ViewRow(s''.world, sub, s.world.messages[i].aggId) == ViewRow(s.world, sub, s.world.messages[i].aggId)
  {
    run, s' := HiddenFailureRun(cfg, s, p, sub, i);
    RunKeepsInv(cfg, s, run, s');
    var e := s.world.messages[i];
    forall x | x in s'.workers
      ensures ClearWorker(cfg, s'.world, s'.workers[x], sub, e)
    {
      assert ClearWorker(cfg, s.world, s.workers[x], sub, e);
    }
    forall more, s'' | After(cfg, s', more) == Some(s'')
      ensures ViewRow(s''.world, sub, e.aggId) == ViewRow(s.world, sub, e.aggId)
    {
      StuckForever(cfg, s', more, s'', sub, e);
      assert ViewRow(s'.world, sub, e.aggId) == ViewRow(s.world, sub, e.aggId);
    }
  }

  // ----- Exactly when every processed event is in the view -----

  lemma GapBreaksMarks<S(!new), V(!new)>(cfg: Config<S, V>, d: World<V>, sub: SubId, e: Event)
    requires sub in cfg.subs && Follows(cfg.subs[sub], Stream(d.events, e.aggId)) && Gap(d, sub, e)
    ensures !MarksWithinViews(cfg, d)
  {
    assert !ProcessedAreSeen(d, sub, e.aggId);
  }

  lemma TransactionalMarksWithin<S(!new), V(!new)>(cfg: Config<S, V>, s: System<S, V>)
    requires Transactional(cfg) && SystemInv(cfg, s)
    ensures MarksWithinViews(cfg, s.world)
  {
    forall sub, a | sub in cfg.subs && Follows(cfg.subs[sub], Stream(s.world.events, a))
      ensures ProcessedAreSeen(s.world, sub, a)
    {
      assert Followed(cfg, s.world, sub, a) && ViewOk(cfg, s.world, sub, a);
    }
  }

  /** From any state that meets the invariant, with two consecutive events of a
      followed stream waiting for two idle workers: in all states that can follow,
      processed events are within their views, if and only if handlers write in the
      transaction; whether they hide failures makes no difference then. */
  lemma HarmlessIffTransactional<S(!new), V(!new)>(
      cfg: Config<S, V>, s: System<S, V>, p: nat, q: nat, sub: SubId, i: nat, j: nat)
    requires Replayable(cfg) && SystemInv(cfg, s) && p != q && p !in s.workers && q !in s.workers
    requires NextTwo(cfg, s.world, sub, i, j) && Writable(cfg, s.world, sub, i, j)
    requires Follows(cfg.subs[sub], Stream(s.world.events, s.world.messages[i].aggId))
    ensures (forall run, s' :: After(cfg, s, run) == Some(s') ==> MarksWithinViews(cfg, s'.world))
      <==> !cfg.pooled
  {
    assert s.world.messages[i] in s.world.messages && s.world.messages[j] in s.world.messages;
    if cfg.pooled {
      var run, s' := PooledHandlerRegresses(cfg, s, p, q, sub, i, j);
      GapBreaksMarks(cfg, s'.world, sub, s.world.messages[j]);
    } else {
      forall run, s' | After(cfg, s, run) == Some(s')
        ensures MarksWithinViews(cfg, s'.world)
      {
        RunKeepsInv(cfg, s, run, s');
        TransactionalMarksWithin(cfg, s');
      }
    }
  }
}
