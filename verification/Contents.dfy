/** What every row that the handlers make has, every view has: whichever way they
    write, and whatever the snapshots are like. */
module Contents {
  import opened Events
  import opened World
  import opened Projecting
  import opened Machine

  predicate GoodRow<V>(row: Option<Row<V>>, good: V -> bool) {
    row.Some? ==> good(row.value.content)
  }

  /** On a good row or none, the handlers leave a good row or none. */
  ghost predicate KeepGood<S(!new), V(!new)>(cfg: Config<S, V>, good: V -> bool) {
    forall sub, row: Option<Row<V>>, e {:trigger cfg.subs[sub].handle(row, e)} ::
      sub in cfg.subs && GoodRow(row, good) && Tracked(cfg, e) ==> GoodRow(cfg.subs[sub].handle(row, e), good)
  }

  ghost predicate GoodViews<V>(d: World<V>, good: V -> bool) {
    forall sub, a :: GoodRow(ViewRow(d, sub, a), good)
  }

  /** The row that a worker is about to commit, if it has one. */
  predicate GoodWorker<V>(wk: Worker<V>, good: V -> bool) {
    wk.InTx? ==>
      && (wk.stage.Ran? ==> GoodRow(wk.stage.row, good))
      && (wk.stage.Marked? && wk.stage.writes.view.Some? ==> GoodRow(wk.stage.writes.view.value.row, good))
  }

  ghost predicate Good<S, V>(s: System<S, V>, good: V -> bool) {
    GoodViews(s.world, good) && forall p :: p in s.workers ==> GoodWorker(s.workers[p], good)
  }

  lemma PutKeepsGood<V>(d: World<V>, d': World<V>, w: ViewWrite<V>, good: V -> bool)
    requires GoodViews(d, good) && GoodRow(w.row, good) && d'.views == PutView(d.views, w)
    ensures GoodViews(d', good)
  {
    forall sub, a
      ensures GoodRow(ViewRow(d', sub, a), good)
    {
      assert GoodRow(ViewRow(d, sub, a), good);
    }
  }

  lemma SameViewsGood<V>(d: World<V>, d': World<V>, good: V -> bool)
    requires GoodViews(d, good)
    ensures d'.views == d.views ==> GoodViews(d', good)
  {
    forall sub, a | d'.views == d.views
      ensures GoodRow(ViewRow(d', sub, a), good)
    {
      assert GoodRow(ViewRow(d, sub, a), good);
    }
  }

  lemma HandlerKeepsGood<S(!new), V(!new)>(cfg: Config<S, V>, d: World<V>, sub: SubId, i: nat, good: V -> bool)
    requires KeepGood(cfg, good) && GoodViews(d, good) && Inv(cfg, d) && sub in cfg.subs && i < |d.messages|
    ensures GoodRow(cfg.subs[sub].handle(ViewRow(d, sub, d.messages[i].aggId), d.messages[i]), good)
    ensures GoodViews(PooledWrite(cfg, d, sub, d.messages[i]), good)
  {
    var e := d.messages[i];
    assert e in d.messages && e in d.events;
    assert GoodRow(ViewRow(d, sub, e.aggId), good);
    var row := cfg.subs[sub].handle(ViewRow(d, sub, e.aggId), e);
    PutKeepsGood(d, PooledWrite(cfg, d, sub, e), ViewWrite(sub, e, row), good);
  }

  lemma HandlingKeepsGood<S(!new), V(!new)>(
      cfg: Config<S, V>, d: World<V>, wk: Worker<V>, act: WorkerStep, good: V -> bool)
    requires KeepGood(cfg, good) && Inv(cfg, d) && WorkerOk(cfg, d, wk) && Handling(cfg, d, wk, act).Some?
    requires GoodViews(d, good) && GoodWorker(wk, good)
    ensures var (d', wk') := Handling(cfg, d, wk, act).value;
      GoodViews(d', good) && (wk'.Some? ==> GoodWorker(wk'.value, good))
  {
    HandlerKeepsGood(cfg, d, wk.sub, wk.i, good);
    var d' := Handling(cfg, d, wk, act).value.0;
    if act.CommitHandling? && act.effect && wk.stage.writes.view.Some? {
      PutKeepsGood(d, d', wk.stage.writes.view.value, good);
    } else if !act.RunHandler? {
      SameViewsGood(d, d', good);
    }
  }

  lemma StepKeepsGood<S(!new), V(!new)>(
      cfg: Config<S, V>, s: System<S, V>, step: Step, s': System<S, V>, good: V -> bool)
    requires KeepGood(cfg, good) && SystemInv(cfg, s) && Good(s, good) && Take(cfg, s, step) == Some(s')
    ensures Good(s', good)
  {
    SameViewsGood(s.world, s'.world, good);
    match step
    case ByWriter(w, action) => WriterKeepsViews(cfg, s, w, action, s');
    case ByRelay(r, move) => RelayKeepsViews(cfg, s, r, move, s');
    case ByWorker(p, act) =>
      if !act.Receive? && !act.Crash? {
        WorkerMoved(cfg, s, p, act, s');
        HandlingKeepsGood(cfg, s.world, s.workers[p], act, good);
      }
  }

  lemma {:induction false} RunKeepsGood<S(!new), V(!new)>(
      cfg: Config<S, V>, s: System<S, V>, run: seq<Step>, s': System<S, V>, good: V -> bool)
    requires KeepGood(cfg, good) && SystemInv(cfg, s) && Good(s, good) && After(cfg, s, run) == Some(s')
    ensures Good(s', good)
    decreases |run|
  {
    if run != [] {
      var mid := Take(cfg, s, run[0]).value;
      StepKeepsGood(cfg, s, run[0], mid, good);
      StepKeepsInv(cfg, s, run[0], mid);
      RunKeepsGood(cfg, mid, run[1..], s', good);
    }
  }

  /** In every reachable state every view is good. */
  lemma ViewsAreGood<S(!new), V(!new)>(cfg: Config<S, V>, s: System<S, V>, good: V -> bool)
    requires KeepGood(cfg, good) && Reachable(cfg, s)
    ensures GoodViews(s.world, good)
  {
    var run :| After(cfg, Start<S, V>(), run) == Some(s);
    StartInv(cfg);
    RunKeepsGood(cfg, Start(), run, s, good);
  }
}
