/** Handlers that write through the pool, and still keep every view a fold of its
    stream: each event overwrites whatever the others have left, so a late or an
    outdated write puts the view on another prefix, but never on anything else. */
module Overwriting {
  import opened Events
  import opened World
  import opened Projecting
  import opened Machine

  /** On a view that any events of the stream have left, and for the first event on no
      view as well, the handler leaves the fold up to its own event. */
  ghost predicate Rebuilds<V(!new)>(sub: Subscription<V>, es: seq<Event>) {
    forall j, k :: 0 <= j <= |es| && 0 <= k < |es| && (j > 0 || k == 0) ==>
      sub.handle(ViewFold(sub, es[..j]), es[k]) == ViewFold(sub, es[..k + 1])
  }

  lemma RebuildsPrefix<V(!new)>(sub: Subscription<V>, es: seq<Event>, es': seq<Event>)
    requires es <= es' && Rebuilds(sub, es')
    ensures Rebuilds(sub, es)
  {
    forall j, k | 0 <= j <= |es| && 0 <= k < |es| && (j > 0 || k == 0)
      ensures sub.handle(ViewFold(sub, es[..j]), es[k]) == ViewFold(sub, es[..k + 1])
    {
      assert es[..j] == es'[..j] && es[k] == es'[k] && es[..k + 1] == es'[..k + 1];
    }
  }

  /** The handler follows the stream and overwrites along it. */
  ghost predicate Rebuilding<S(!new), V(!new)>(cfg: Config<S, V>, d: World<V>, sub: SubId, a: AggId) {
    Suited(cfg, d, sub, a) && Rebuilds(cfg.subs[sub], Stream(d.events, a))
  }

  lemma RebuildingBefore<S(!new), V(!new)>(cfg: Config<S, V>, d: World<V>, d': World<V>, sub: SubId, a: AggId)
    requires d.events <= d'.events && Rebuilding(cfg, d', sub, a)
    ensures Rebuilding(cfg, d, sub, a)
  {
    StreamPrefix(d.events, d'.events, a);
    FollowsPrefix(cfg.subs[sub], Stream(d.events, a), Stream(d'.events, a));
    RebuildsPrefix(cfg.subs[sub], Stream(d.events, a), Stream(d'.events, a));
  }

  /** The worker is in a transaction for an event of the stream. */
  predicate Busy<V>(d: World<V>, wk: Worker<V>, sub: SubId, a: AggId) {
    wk.InTx? && wk.sub == sub && wk.i < |d.messages| && d.messages[wk.i].aggId == a
  }

  /** Who has read a version above 0 will find a row: rows never vanish. */
  ghost predicate FindsRow<V>(d: World<V>, wk: Worker<V>, sub: SubId, a: AggId) {
    Busy(d, wk, sub, a) && 1 <= wk.version ==> 1 <= ViewVersion(d, sub, a)
  }

  ghost predicate Rebuilt<S(!new), V(!new)>(cfg: Config<S, V>, s: System<S, V>, sub: SubId, a: AggId)
    requires sub in cfg.subs
  {
    ViewIsFold(cfg, s.world, sub, a) && forall p :: p in s.workers ==> FindsRow(s.world, s.workers[p], sub, a)
  }

  /** A message of a contiguous stream is where its version says. */
  lemma MessageAtVersion<S(!new), V(!new)>(cfg: Config<S, V>, d: World<V>, i: nat)
    requires Inv(cfg, d) && Replayable(cfg) && i < |d.messages|
    ensures var m := d.messages[i];
      && 1 <= m.version <= |Stream(d.events, m.aggId)| && Stream(d.events, m.aggId)[m.version - 1] == m
  {
    assert d.messages[i] in d.messages;
    RowAtVersion(d.events, d.messages[i]);
  }

  /** A pooled write moves the view to the fold up to its event. */
  lemma PooledRowIsFold<S(!new), V(!new)>(cfg: Config<S, V>, d: World<V>, sub: SubId, i: nat)
    requires Inv(cfg, d) && i < |d.messages| && Rebuilding(cfg, d, sub, d.messages[i].aggId)
    requires ViewIsFold(cfg, d, sub, d.messages[i].aggId)
    requires d.messages[i].version == 1 || 1 <= ViewVersion(d, sub, d.messages[i].aggId)
    ensures var m, d' := d.messages[i], PooledWrite(cfg, d, sub, d.messages[i]);
      && ViewIsFold(cfg, d', sub, m.aggId) && ViewVersion(d', sub, m.aggId) == m.version
  {
    var m, d' := d.messages[i], PooledWrite(cfg, d, sub, d.messages[i]);
    var es, j := Stream(d.events, m.aggId), ViewVersion(d, sub, m.aggId);
    MessageAtVersion(cfg, d, i);
    assert cfg.subs[sub].handle(ViewFold(cfg.subs[sub], es[..j]), es[m.version - 1]) ==
      ViewFold(cfg.subs[sub], es[..m.version]);
    assert ViewRow(d', sub, m.aggId) == ViewFold(cfg.subs[sub], es[..m.version]);
  }

  /** What a pooled worker does to the views. */
  lemma PooledViews<S(!new), V(!new)>(cfg: Config<S, V>, d: World<V>, wk: Worker<V>, act: WorkerStep)
    requires cfg.pooled && WorkerOk(cfg, d, wk) && Handling(cfg, d, wk, act).Some?
    ensures var (d', wk') := Handling(cfg, d, wk, act).value;
      && d'.events == d.events && d'.messages == d.messages
      && d'.views == if act.RunHandler? then PooledWrite(cfg, d, wk.sub, d.messages[wk.i]).views else d.views
  {
    HandlingTouchesViews(cfg, d, wk, act);
    if act.CommitHandling? {
      ProjectionMerge(d, wk.stage.writes, wk.sub, d.messages[wk.i], None);
    }
  }

  lemma HandlingRebuilds<S(!new), V(!new)>(
      cfg: Config<S, V>, d: World<V>, wk: Worker<V>, act: WorkerStep, sub: SubId, a: AggId)
    requires cfg.pooled && Inv(cfg, d) && WorkerOk(cfg, d, wk) && Handling(cfg, d, wk, act).Some?
    requires Rebuilding(cfg, d, sub, a) && ViewIsFold(cfg, d, sub, a) && FindsRow(d, wk, sub, a)
    ensures var d' := Handling(cfg, d, wk, act).value.0;
      && ViewIsFold(cfg, d', sub, a) && (1 <= ViewVersion(d, sub, a) ==> 1 <= ViewVersion(d', sub, a))
  {
    PooledViews(cfg, d, wk, act);
    var d', m := Handling(cfg, d, wk, act).value.0, d.messages[wk.i];
    if act.RunHandler? && wk.sub == sub && m.aggId == a {
      MessageAtVersion(cfg, d, wk.i);
      PooledRowIsFold(cfg, d, sub, wk.i);
      assert ViewRow(d', sub, a) == ViewRow(PooledWrite(cfg, d, sub, m), sub, a);
    } else {
      assert ViewRow(d', sub, a) == ViewRow(d, sub, a);
    }
  }

  lemma HandlingFindsRow<S(!new), V(!new)>(
      cfg: Config<S, V>, d: World<V>, wk: Worker<V>, act: WorkerStep, sub: SubId, a: AggId)
    requires WorkerOk(cfg, d, wk) && Handling(cfg, d, wk, act).Some? && FindsRow(d, wk, sub, a)
    ensures var wk' := Handling(cfg, d, wk, act).value.1;
      wk'.Some? ==> FindsRow(d, wk'.value, sub, a)
  {
  }

  lemma WorkerRebuilds<S(!new), V(!new)>(
      cfg: Config<S, V>, s: System<S, V>, p: nat, act: WorkerStep, s': System<S, V>, sub: SubId, a: AggId)
    requires cfg.pooled && SystemInv(cfg, s) && TakeWorker(cfg, s, p, act) == Some(s')
    requires Rebuilding(cfg, s.world, sub, a) && Rebuilt(cfg, s, sub, a)
    ensures Rebuilt(cfg, s', sub, a)
  {
    if !act.Receive? && !act.Crash? {
      WorkerMoved(cfg, s, p, act, s');
      PooledViews(cfg, s.world, s.workers[p], act);
      HandlingRebuilds(cfg, s.world, s.workers[p], act, sub, a);
      HandlingFindsRow(cfg, s.world, s.workers[p], act, sub, a);
      forall q | q in s'.workers
        ensures FindsRow(s'.world, s'.workers[q], sub, a)
      {
        assert q != p ==> FindsRow(s.world, s.workers[q], sub, a);
      }
    }
  }

  /** Others leave the views alone; the stream may get longer. */
  lemma OthersRebuild<S(!new), V(!new)>(
      cfg: Config<S, V>, s: System<S, V>, s': System<S, V>, sub: SubId, a: AggId)
    requires SystemInv(cfg, s) && Rebuilding(cfg, s.world, sub, a) && Rebuilt(cfg, s, sub, a)
    requires s'.world.views == s.world.views && s'.workers == s.workers
    requires s.world.events <= s'.world.events && s.world.messages <= s'.world.messages
    ensures Rebuilt(cfg, s', sub, a)
  {
    StreamPrefix(s.world.events, s'.world.events, a);
    var k := ViewVersion(s.world, sub, a);
    assert ViewRow(s'.world, sub, a) == ViewRow(s.world, sub, a);
    assert Stream(s'.world.events, a)[..k] == Stream(s.world.events, a)[..k];
    forall q | q in s'.workers
      ensures FindsRow(s'.world, s'.workers[q], sub, a)
    {
      assert FindsRow(s.world, s.workers[q], sub, a) && WorkerOk(cfg, s.world, s.workers[q]);
    }
  }

  lemma StepRebuilds<S(!new), V(!new)>(
      cfg: Config<S, V>, s: System<S, V>, step: Step, s': System<S, V>, sub: SubId, a: AggId)
    requires cfg.pooled && SystemInv(cfg, s) && Take(cfg, s, step) == Some(s')
    requires Rebuilding(cfg, s.world, sub, a) && Rebuilt(cfg, s, sub, a)
    ensures Rebuilt(cfg, s', sub, a)
  {
    match step
    case ByWriter(w, action) =>
      WriterKeepsViews(cfg, s, w, action, s');
      OthersRebuild(cfg, s, s', sub, a);
    case ByRelay(r, move) =>
      RelayKeepsViews(cfg, s, r, move, s');
      OthersRebuild(cfg, s, s', sub, a);
    case ByWorker(p, act) =>
      WorkerRebuilds(cfg, s, p, act, s', sub, a);
  }

  lemma {:induction false} RunRebuilds<S(!new), V(!new)>(
      cfg: Config<S, V>, s: System<S, V>, run: seq<Step>, s': System<S, V>, sub: SubId, a: AggId)
    requires cfg.pooled && SystemInv(cfg, s) && After(cfg, s, run) == Some(s')
    requires Rebuilding(cfg, s'.world, sub, a) && Rebuilt(cfg, s, sub, a)
    ensures Rebuilt(cfg, s', sub, a)
    decreases |run|
  {
    if run != [] {
      var mid := Take(cfg, s, run[0]).value;
      StepKeepsInv(cfg, s, run[0], mid);
      RunKeepsInv(cfg, mid, run[1..], s');
      RebuildingBefore(cfg, mid.world, s'.world, sub, a);
      RebuildingBefore(cfg, s.world, mid.world, sub, a);
      StepRebuilds(cfg, s, run[0], mid, sub, a);
      RunRebuilds(cfg, mid, run[1..], s', sub, a);
    }
  }

  /** In every reachable state of a system with pooled handlers: the view of a stream
      that the handler rebuilds is the fold of a prefix of it. */
  lemma PooledPrefixConsistency<S(!new), V(!new)>(cfg: Config<S, V>, s: System<S, V>, sub: SubId, a: AggId)
    requires cfg.pooled && Reachable(cfg, s) && Rebuilding(cfg, s.world, sub, a)
    ensures Rebuilt(cfg, s, sub, a)
    ensures var k, stream := ViewVersion(s.world, sub, a), Stream(s.world.events, a);
      0 <= k <= |stream| && ViewRow(s.world, sub, a) == ViewFold(cfg.subs[sub], stream[..k])
  {
    var run :| After(cfg, Start<S, V>(), run) == Some(s);
    StartInv(cfg);
    assert ViewRow(InitialWorld<V>(), sub, a) == None;
    RunRebuilds(cfg, Start(), run, s, sub, a);
  }

  // ----- Streams without any view -----

  /** Where there is no view the handler leaves none, at no event of the stream. */
  ghost predicate LeavesNothing<V(!new)>(sub: Subscription<V>, es: seq<Event>) {
    forall e :: e in es ==> sub.handle(None, e) == None
  }

  /** The worker has no row for the view either. */
  ghost predicate HoldsNothing<V>(d: World<V>, wk: Worker<V>, sub: SubId, a: AggId) {
    Busy(d, wk, sub, a) ==>
      && (wk.stage.Ran? ==> wk.stage.row == None)
      && (wk.stage.Marked? && wk.stage.writes.view.Some? ==> wk.stage.writes.view.value.row == None)
  }

  ghost predicate Blank<S, V>(s: System<S, V>, sub: SubId, a: AggId) {
    ViewRow(s.world, sub, a) == None && forall p :: p in s.workers ==> HoldsNothing(s.world, s.workers[p], sub, a)
  }

  lemma HandlingStaysBlank<S(!new), V(!new)>(
      cfg: Config<S, V>, d: World<V>, wk: Worker<V>, act: WorkerStep, sub: SubId, a: AggId)
    requires BaseInv(cfg, d) && WorkerOk(cfg, d, wk) && Handling(cfg, d, wk, act).Some?
    requires sub in cfg.subs && LeavesNothing(cfg.subs[sub], Stream(d.events, a))
    requires ViewRow(d, sub, a) == None && HoldsNothing(d, wk, sub, a)
    ensures var (d', wk') := Handling(cfg, d, wk, act).value;
      && ViewRow(d', sub, a) == None && d'.messages == d.messages
      && (wk'.Some? ==> HoldsNothing(d', wk'.value, sub, a))
  {
    HandlingTouchesViews(cfg, d, wk, act);
    var m := d.messages[wk.i];
    assert m in d.messages;
    if act.RunHandler? && wk.sub == sub && m.aggId == a {
      StreamMembers(d.events, a);
      assert m in Stream(d.events, a);
    }
    if act.CommitHandling? {
      var w := wk.stage.writes;
      ProjectionMerge(d, w, wk.sub, m, if w.view.Some? then w.view.value.row else None);
    }
  }

  lemma StepStaysBlank<S(!new), V(!new)>(
      cfg: Config<S, V>, s: System<S, V>, step: Step, s': System<S, V>, sub: SubId, a: AggId)
    requires SystemInv(cfg, s) && Take(cfg, s, step) == Some(s') && Blank(s, sub, a)
    requires sub in cfg.subs && LeavesNothing(cfg.subs[sub], Stream(s.world.events, a))
    ensures Blank(s', sub, a)
  {
    match step
    case ByWriter(w, action) => WriterKeepsViews(cfg, s, w, action, s');
    case ByRelay(r, move) =>
      RelayKeepsViews(cfg, s, r, move, s');
      assert forall p :: p in s.workers ==> WorkerOk(cfg, s.world, s.workers[p]);
    case ByWorker(p, act) =>
      if !act.Receive? && !act.Crash? {
        WorkerMoved(cfg, s, p, act, s');
        HandlingStaysBlank(cfg, s.world, s.workers[p], act, sub, a);
      }
  }

  lemma {:induction false} RunStaysBlank<S(!new), V(!new)>(
      cfg: Config<S, V>, s: System<S, V>, run: seq<Step>, s': System<S, V>, sub: SubId, a: AggId)
    requires SystemInv(cfg, s) && After(cfg, s, run) == Some(s') && Blank(s, sub, a)
    requires sub in cfg.subs && LeavesNothing(cfg.subs[sub], Stream(s'.world.events, a))
    ensures Blank(s', sub, a)
    decreases |run|
  {
    if run != [] {
      var mid := Take(cfg, s, run[0]).value;
      StepKeepsInv(cfg, s, run[0], mid);
      RunKeepsInv(cfg, mid, run[1..], s');
      StreamPrefix(mid.world.events, s'.world.events, a);
      StreamPrefix(s.world.events, mid.world.events, a);
      StepStaysBlank(cfg, s, run[0], mid, sub, a);
      RunStaysBlank(cfg, mid, run[1..], s', sub, a);
    }
  }

  /** A stream whose handler leaves nothing has no view in any reachable state. */
  lemma NeverAView<S(!new), V(!new)>(cfg: Config<S, V>, s: System<S, V>, sub: SubId, a: AggId)
    requires Reachable(cfg, s) && sub in cfg.subs && LeavesNothing(cfg.subs[sub], Stream(s.world.events, a))
    ensures ViewRow(s.world, sub, a) == None
  {
    var run :| After(cfg, Start<S, V>(), run) == Some(s);
    StartInv(cfg);
    RunStaysBlank(cfg, Start(), run, s, sub, a);
  }
}
