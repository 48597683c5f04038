/** Gaps: an event that is processed although the view does not have it.  The view
    then never moves again, because the version gate keeps every later event out and
    the idempotency check keeps this one out. */
module Gaps {
  import opened Events
  import opened World
  import opened Projecting
  import opened Machine

  /** `e` is processed, and the next event that its view is waiting for. */
  ghost predicate Gap<V>(d: World<V>, sub: SubId, e: Event) {
    e in d.events && Processed(d, sub, e) && ViewVersion(d, sub, e.aggId) == e.version - 1
  }

  /** The transaction has a row for the view, or will have one. */
  predicate MayWrite<S(!new), V(!new)>(cfg: Config<S, V>, stage: Stage<V>, v: int, m: Event) {
    || (stage.Begun? && m.version == v + 1)
    || (!cfg.pooled && (stage.Ran? || (stage.Marked? && stage.writes.view.Some?)))
  }

  /** The worker is not past the idempotency check with `e`, and is not about to write
      the view of `e` with another event of its stream. */
  ghost predicate ClearWorker<S(!new), V(!new)>(
      cfg: Config<S, V>, d: World<V>, wk: Worker<V>, sub: SubId, e: Event) {
    wk.sub == sub && wk.i < |d.messages| && d.messages[wk.i].aggId == e.aggId ==>
      var m := d.messages[wk.i];
      && (wk.Attempting? || wk.InTx? ==> m.version != e.version)
      && (wk.InTx? ==> !MayWrite(cfg, wk.stage, wk.version, m))
  }

  /** A gap that nobody is about to write over. */
  ghost predicate Stuck<S(!new), V(!new)>(cfg: Config<S, V>, s: System<S, V>, sub: SubId, e: Event) {
    Gap(s.world, sub, e) && forall p :: p in s.workers ==> ClearWorker(cfg, s.world, s.workers[p], sub, e)
  }

  lemma SameVersionSameEvent<V>(d: World<V>, m: Event, e: Event)
    requires Contiguous(d.events) && m in d.events && e in d.events && m.aggId == e.aggId && m.version == e.version
    ensures m == e
  {
    RowAtVersion(d.events, m);
    RowAtVersion(d.events, e);
  }

  lemma HandlingKeepsStuck<S(!new), V(!new)>(
      cfg: Config<S, V>, d: World<V>, wk: Worker<V>, act: WorkerStep, sub: SubId, e: Event)
    requires Replayable(cfg) && Inv(cfg, d) && WorkerOk(cfg, d, wk) && Handling(cfg, d, wk, act).Some?
    requires Gap(d, sub, e) && ClearWorker(cfg, d, wk, sub, e)
    ensures var (d', wk') := Handling(cfg, d, wk, act).value;
      && Gap(d', sub, e) && ViewRow(d', sub, e.aggId) == ViewRow(d, sub, e.aggId)
      && (wk'.Some? ==> ClearWorker(cfg, d', wk'.value, sub, e))
  {
    HandlingKeepsRow(cfg, d, wk, act, sub, e);
    HandlingTouchesViews(cfg, d, wk, act);
    HandlingStaysClear(cfg, d, wk, act, sub, e);
  }

  lemma HandlingKeepsRow<S(!new), V(!new)>(
      cfg: Config<S, V>, d: World<V>, wk: Worker<V>, act: WorkerStep, sub: SubId, e: Event)
    requires WorkerOk(cfg, d, wk) && ClearWorker(cfg, d, wk, sub, e) && Handling(cfg, d, wk, act).Some?
    ensures var d' := Handling(cfg, d, wk, act).value.0;
      ViewRow(d', sub, e.aggId) == ViewRow(d, sub, e.aggId) && d.processed <= d'.processed
  {
    if act.CommitHandling? {
      var w, m := wk.stage.writes, d.messages[wk.i];
      ProjectionMerge(d, w, wk.sub, m, if w.view.Some? then w.view.value.row else None);
    }
  }

  lemma HandlingStaysClear<S(!new), V(!new)>(
      cfg: Config<S, V>, d: World<V>, wk: Worker<V>, act: WorkerStep, sub: SubId, e: Event)
    requires Replayable(cfg) && Inv(cfg, d) && WorkerOk(cfg, d, wk) && Handling(cfg, d, wk, act).Some?
    requires Gap(d, sub, e) && ClearWorker(cfg, d, wk, sub, e)
    ensures var wk' := Handling(cfg, d, wk, act).value.1;
      wk'.Some? ==> ClearWorker(cfg, d, wk'.value, sub, e)
  {
    if act.CheckProcessed? && wk.sub == sub
      && d.messages[wk.i].aggId == e.aggId && d.messages[wk.i].version == e.version {
      SameVersionSameEvent(d, d.messages[wk.i], e);
    } else {
      PastTheCheckStaysClear(cfg, d, wk, act, sub, e);
    }
  }

  lemma PastTheCheckStaysClear<S(!new), V(!new)>(
      cfg: Config<S, V>, d: World<V>, wk: Worker<V>, act: WorkerStep, sub: SubId, e: Event)
    requires WorkerOk(cfg, d, wk) && Handling(cfg, d, wk, act).Some?
    requires ViewVersion(d, sub, e.aggId) == e.version - 1 && ClearWorker(cfg, d, wk, sub, e)
    requires act.CheckProcessed? && wk.sub == sub && d.messages[wk.i].aggId == e.aggId ==>
      d.messages[wk.i].version != e.version
    ensures var wk' := Handling(cfg, d, wk, act).value.1;
      wk'.Some? ==> ClearWorker(cfg, d, wk'.value, sub, e)
  {
  }

  lemma StepKeepsStuck<S(!new), V(!new)>(
      cfg: Config<S, V>, s: System<S, V>, step: Step, s': System<S, V>, sub: SubId, e: Event)
    requires Replayable(cfg) && SystemInv(cfg, s) && Stuck(cfg, s, sub, e) && Take(cfg, s, step) == Some(s')
    ensures Stuck(cfg, s', sub, e) && ViewRow(s'.world, sub, e.aggId) == ViewRow(s.world, sub, e.aggId)
  {
    match step
    case ByWriter(w, action) => WriterKeepsViews(cfg, s, w, action, s');
    case ByRelay(r, move) => RelayKeepsViews(cfg, s, r, move, s');
    case ByWorker(p, act) =>
      if !act.Receive? && !act.Crash? {
        WorkerKeepsStuck(cfg, s, p, act, s', sub, e);
      }
  }

  lemma WorkerKeepsStuck<S(!new), V(!new)>(
      cfg: Config<S, V>, s: System<S, V>, p: nat, act: WorkerStep, s': System<S, V>, sub: SubId, e: Event)
    requires Replayable(cfg) && SystemInv(cfg, s) && Stuck(cfg, s, sub, e) && TakeWorker(cfg, s, p, act) == Some(s')
    requires !act.Receive? && !act.Crash?
    ensures Stuck(cfg, s', sub, e) && ViewRow(s'.world, sub, e.aggId) == ViewRow(s.world, sub, e.aggId)
  {
    WorkerMoved(cfg, s, p, act, s');
    HandlingKeepsStuck(cfg, s.world, s.workers[p], act, sub, e);
    HandlingTouchesViews(cfg, s.world, s.workers[p], act);
  }

  /** Whatever runs from now on, with any number of workers, retries and redeliveries,
      and with handlers however correct: the view stays as it is. */
  lemma {:induction false} StuckForever<S(!new), V(!new)>(
      cfg: Config<S, V>, s: System<S, V>, run: seq<Step>, s': System<S, V>, sub: SubId, e: Event)
    requires Replayable(cfg) && SystemInv(cfg, s) && Stuck(cfg, s, sub, e) && After(cfg, s, run) == Some(s')
    ensures Stuck(cfg, s', sub, e) && ViewRow(s'.world, sub, e.aggId) == ViewRow(s.world, sub, e.aggId)
    decreases |run|
  {
    if run != [] {
      var mid := Take(cfg, s, run[0]).value;
      StepKeepsStuck(cfg, s, run[0], mid, sub, e);
      StepKeepsInv(cfg, s, run[0], mid);
      StuckForever(cfg, mid, run[1..], s', sub, e);
    }
  }
}
