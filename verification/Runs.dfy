/** Building runs of the machine step by step. */
module Runs {
  import opened Events
  import opened World
  import opened Projecting
  import opened Machine

  lemma Then<S(!new), V(!new)>(
      cfg: Config<S, V>, s: System<S, V>, step: Step, mid: System<S, V>, run: seq<Step>, s': System<S, V>)
    requires Take(cfg, s, step) == Some(mid) && After(cfg, mid, run) == Some(s')
    ensures After(cfg, s, [step] + run) == Some(s')
  {
    assert ([step] + run)[1..] == run;
  }

  lemma {:induction false} AfterConcat<S(!new), V(!new)>(
      cfg: Config<S, V>, s: System<S, V>, run: seq<Step>, mid: System<S, V>, more: seq<Step>, s': System<S, V>)
    requires After(cfg, s, run) == Some(mid) && After(cfg, mid, more) == Some(s')
    ensures After(cfg, s, run + more) == Some(s')
    decreases |run|
  {
    if run == [] {
      assert run + more == more;
    } else {
      AfterConcat(cfg, Take(cfg, s, run[0]).value, run[1..], mid, more, s');
      assert (run + more)[1..] == run[1..] + more;
    }
  }

  /** One more step at the end of a run. */
  lemma Extend<S(!new), V(!new)>(
      cfg: Config<S, V>, s: System<S, V>, run: seq<Step>, mid: System<S, V>, step: Step, s': System<S, V>)
    requires After(cfg, s, run) == Some(mid) && Take(cfg, mid, step) == Some(s')
    ensures After(cfg, s, run + [step]) == Some(s')
  {
    Then(cfg, mid, step, s', [], s');
    assert [step] + [] == [step];
    AfterConcat(cfg, s, run, mid, [step], s');
  }

  lemma ReachableAfter<S(!new), V(!new)>(cfg: Config<S, V>, s: System<S, V>, run: seq<Step>, s': System<S, V>)
    requires Reachable(cfg, s) && After(cfg, s, run) == Some(s')
    ensures Reachable(cfg, s')
  {
    var before :| After(cfg, Start<S, V>(), before) == Some(s);
    AfterConcat(cfg, Start(), before, s, run, s');
  }

  // ----- One worker on its way through a delivery -----

  /** `s`, but for the world and the program counter of worker p. */
  function At<S, V>(s: System<S, V>, p: nat, d: World<V>, wk: Worker<V>): System<S, V> {
    s.(world := d, workers := s.workers[p := wk])
  }

  /** Nobody but worker p moves. */
  ghost predicate OnlyBy(run: seq<Step>, p: nat) {
    forall step :: step in run ==> step.ByWorker? && step.p == p
  }

  lemma Fetched<S(!new), V(!new)>(cfg: Config<S, V>, s: System<S, V>, p: nat, sub: SubId, i: nat)
      returns (run: seq<Step>)
    requires p !in s.workers && sub in cfg.subs && i < |s.world.messages| && (i, sub) !in s.world.acked
    requires s.world.messages[i].aggType == cfg.subs[sub].topic
    ensures After(cfg, s, run) == Some(At(s, p, s.world, Received(sub, i))) && OnlyBy(run, p)
  {
    run := [ByWorker(p, Receive(sub, i))] + [];
    Then(cfg, s, ByWorker(p, Receive(sub, i)),
      At(s, p, s.world, Received(sub, i)), [], At(s, p, s.world, Received(sub, i)));
  }

  /** The worker takes one more step. */
  lemma Act<S(!new), V(!new)>(
      cfg: Config<S, V>, s: System<S, V>, p: nat, run: seq<Step>, d: World<V>, wk: Worker<V>,
      act: WorkerStep, d': World<V>, wk': Worker<V>)
      returns (run': seq<Step>)
    requires After(cfg, s, run) == Some(At(s, p, d, wk))
    requires wk.sub in cfg.subs && wk.i < |d.messages| && !act.Receive? && !act.Crash?
    requires Handling(cfg, d, wk, act) == Some((d', Some(wk')))
    ensures After(cfg, s, run') == Some(At(s, p, d', wk')) && (OnlyBy(run, p) ==> OnlyBy(run', p))
  {
    assert s.workers[p := wk][p := wk'] == s.workers[p := wk'];
    assert Take(cfg, At(s, p, d, wk), ByWorker(p, act)) == Some(At(s, p, d', wk'));
    Extend(cfg, s, run, At(s, p, d, wk), ByWorker(p, act), At(s, p, d', wk'));
    run' := run + [ByWorker(p, act)];
  }

  /** The worker acknowledges or not, and is idle again. */
  lemma Settled<S(!new), V(!new)>(
      cfg: Config<S, V>, s: System<S, V>, p: nat, run: seq<Step>, d: World<V>, sub: SubId, i: nat, ok: bool)
      returns (run': seq<Step>)
    requires After(cfg, s, run) == Some(At(s, p, d, Finished(sub, i, ok)))
    requires sub in cfg.subs && i < |d.messages| && p !in s.workers
    ensures After(cfg, s, run') == Some(s.(world := if ok then d.(acked := d.acked + {(i, sub)}) else d))
    ensures OnlyBy(run, p) ==> OnlyBy(run', p)
  {
    var end := s.(world := if ok then d.(acked := d.acked + {(i, sub)}) else d);
    assert s.workers[p := Finished(sub, i, ok)] - {p} == s.workers;
    assert Take(cfg, At(s, p, d, Finished(sub, i, ok)), ByWorker(p, Settle)) == Some(end);
    Extend(cfg, s, run, At(s, p, d, Finished(sub, i, ok)), ByWorker(p, Settle), end);
    run' := run + [ByWorker(p, Settle)];
  }

  /** Past the version gate: the message is new, its version was read. */
  lemma Gated<S(!new), V(!new)>(cfg: Config<S, V>, s: System<S, V>, p: nat, sub: SubId, i: nat)
      returns (run: seq<Step>)
    requires p !in s.workers && sub in cfg.subs && i < |s.world.messages| && (i, sub) !in s.world.acked
    requires s.world.messages[i].aggType == cfg.subs[sub].topic && !Processed(s.world, sub, s.world.messages[i])
    requires s.world.messages[i].version <= ViewVersion(s.world, sub, s.world.messages[i].aggId) + 1
    ensures After(cfg, s, run) ==
      Some(At(s, p, s.world, InTx(sub, i, ViewVersion(s.world, sub, s.world.messages[i].aggId), Begun)))
    ensures OnlyBy(run, p)
  {
    var d, v := s.world, ViewVersion(s.world, sub, s.world.messages[i].aggId);
    run := Fetched(cfg, s, p, sub, i);
    run := Act(cfg, s, p, run, d, Received(sub, i), CheckProcessed, d, Attempting(sub, i));
    run := Act(cfg, s, p, run, d, Attempting(sub, i), ReadVersion, d, InTx(sub, i, v, Begun));
  }

  /** Mark and commit: the event was unprocessed, the transaction takes effect. */
  lemma MarkedAndCommitted<S(!new), V(!new)>(
      cfg: Config<S, V>, s: System<S, V>, p: nat, run: seq<Step>, d: World<V>, sub: SubId, i: nat, v: int,
      stage: Stage<V>)
      returns (run': seq<Step>)
    requires After(cfg, s, run) == Some(At(s, p, d, InTx(sub, i, v, stage)))
    requires sub in cfg.subs && i < |d.messages| && BaseInv(cfg, d) && !Processed(d, sub, d.messages[i])
    requires MayMark(InTx(sub, i, v, stage), d.messages[i])
    ensures After(cfg, s, run') ==
      Some(At(s, p, Merge(d, TxWrites(cfg, sub, d.messages[i], stage)), Finished(sub, i, true)))
    ensures OnlyBy(run, p) ==> OnlyBy(run', p)
  {
    var w := TxWrites(cfg, sub, d.messages[i], stage);
    MarkAdmitsNone(cfg, d, w, sub, d.messages[i]);
    run' := Act(cfg, s, p, run, d, InTx(sub, i, v, stage), MarkProcessed, d, InTx(sub, i, v, Marked(w, false)));
    run' := Act(cfg, s, p, run', d, InTx(sub, i, v, Marked(w, false)), CommitHandling(true, true),
      Merge(d, w), Finished(sub, i, true));
  }
}
