/** What the projection does while others interfere is what a worker of the machine
    does: each of its actions is a step of that worker on the shared state of the
    moment, and in between there is only what a session may rely on. */
module Moves {
  import opened Events
  import opened World
  import opened Projecting
  import opened Relaying
  import opened Machine
  import opened Runs
  import opened Postgres

  /** One atomic action of a worker. */
  datatype Move<+V> = Move(before: World<V>, from: Worker<V>, act: WorkerStep, after: World<V>, to: Worker<V>)

  ghost predicate IsMove<S(!new), V(!new)>(cfg: Config<S, V>, m: Move<V>) {
    && !m.act.Receive? && !m.act.Crash? && m.from.sub in cfg.subs && m.from.i < |m.before.messages|
    && Handling(cfg, m.before, m.from, m.act) == Some((m.after, Some(m.to)))
  }

  /** A move is a step of the machine, whatever the rest of the system is doing. */
  lemma MoveIsStep<S(!new), V(!new)>(cfg: Config<S, V>, s: System<S, V>, p: nat, m: Move<V>)
    requires IsMove(cfg, m) && p in s.workers && s.workers[p] == m.from && s.world == m.before
    ensures Take(cfg, s, ByWorker(p, m.act)) == Some(At(s, p, m.after, m.to))
  {
  }

  /** From world d and program counter `from` the moves lead to d' and `to`, with others
      running before, between and after them. */
  ghost predicate Interleaved<S(!new), V(!new)>(
      cfg: Config<S, V>, me: Session, d: World<V>, from: Worker<V>, moves: seq<Move<V>>, d': World<V>, to: Worker<V>)
    decreases |moves|
  {
    if moves == [] then from == to && Rely(cfg, me, d, d')
    else
      var init, last := moves[..|moves| - 1], moves[|moves| - 1];
      && Interleaved(cfg, me, d, from, init, last.before, last.from)
      && IsMove(cfg, last) && last.to == to && Rely(cfg, me, last.after, d')
  }

  /** The delivery of message i so far. */
  datatype Trace<+V> = Trace(start: World<V>, i: nat, moves: seq<Move<V>>)

  /** The delivery has come to `wk`, and the session holds no row locks. */
  ghost predicate Along<S(!new), V(!new)>(
      cfg: Config<S, V>, me: Session, t: Trace<V>, sub: SubId, e: Event, d: World<V>, wk: Worker<V>) {
    && sub in cfg.subs && wk.sub == sub && wk.i == t.i && NoLocks(d, me)
    && t.i < |d.messages| && d.messages[t.i] == e
    && Interleaved(cfg, me, t.start, Received(sub, t.i), t.moves, d, wk)
  }

  lemma Begins<S(!new), V(!new)>(cfg: Config<S, V>, me: Session, sub: SubId, i: nat, d: World<V>)
    requires Inv(cfg, d) && sub in cfg.subs && i < |d.messages| && NoLocks(d, me)
    ensures Along(cfg, me, Trace(d, i, []), sub, d.messages[i], d, Received(sub, i))
  {
    RelyReflexive(cfg, me, d);
  }

  /** Others run. */
  lemma Waits<S(!new), V(!new)>(
      cfg: Config<S, V>, me: Session, t: Trace<V>, sub: SubId, e: Event, d: World<V>, d': World<V>, wk: Worker<V>)
    requires Along(cfg, me, t, sub, e, d, wk) && Rely(cfg, me, d, d')
    ensures Along(cfg, me, t, sub, e, d', wk)
  {
    if t.moves == [] {
      RelyTransitive(cfg, me, t.start, d, d');
    } else {
      RelyTransitive(cfg, me, t.moves[|t.moves| - 1].after, d, d');
    }
  }

  /** Others run, and then the worker takes a step. */
  lemma Moved<S(!new), V(!new)>(
      cfg: Config<S, V>, me: Session, t: Trace<V>, sub: SubId, e: Event, d: World<V>, before: World<V>,
      wk: Worker<V>, act: WorkerStep, d': World<V>, wk': Worker<V>)
      returns (t': Trace<V>)
    requires Along(cfg, me, t, sub, e, d, wk) && Rely(cfg, me, d, before) && Inv(cfg, d') && d'.locks == before.locks
    requires before.messages == d'.messages && wk'.sub == sub && wk'.i == t.i && !act.Receive? && !act.Crash?
    requires wk.i < |before.messages| ==> Handling(cfg, before, wk, act) == Some((d', Some(wk')))
    ensures Along(cfg, me, t', sub, e, d', wk') && t'.start == t.start && t'.i == t.i
  {
    Waits(cfg, me, t, sub, e, d, before, wk);
    var m := Move(before, wk, act, d', wk');
    t' := t.(moves := t.moves + [m]);
    assert t'.moves[..|t'.moves| - 1] == t.moves;
    RelyReflexive(cfg, me, d');
  }

  /** The commit of a transaction with the mark of `e`. */
  lemma CommitMoves<S(!new), V(!new)>(
      cfg: Config<S, V>, me: Session, t: Trace<V>, sub: SubId, e: Event, d: World<V>, before: World<V>, v: int,
      w: Writes<V>, poisoned: bool, effect: bool, nil: bool, d': World<V>)
      returns (t': Trace<V>)
    requires Along(cfg, me, t, sub, e, d, InTx(sub, t.i, v, Marked(w, poisoned))) && Rely(cfg, me, d, before)
    requires Inv(cfg, d') && OnlyMarks(w, sub, e)
    requires effect ==> !poisoned && Admits(before, w) && d' == Committed(before, me, w)
    requires !effect ==> d' == Unlock(before, me) && (nil ==> poisoned || !(w.marks !! before.processed))
    ensures Along(cfg, me, t', sub, e, d',
      if e.version == v + 1 && !nil then Attempting(sub, t.i) else Finished(sub, t.i, nil))
    ensures t'.start == t.start && t'.i == t.i
  {
    UnlockNothing(Merge(before, w), me);
    UnlockNothing(before, me);
    assert before.messages[t.i] == e;
    CommitIsHandling(cfg, before, sub, t.i, v, w, poisoned, effect, nil);
    t' := Moved(cfg, me, t, sub, e, d, before, InTx(sub, t.i, v, Marked(w, poisoned)), CommitHandling(effect, nil), d',
      if e.version == v + 1 && !nil then Attempting(sub, t.i) else Finished(sub, t.i, nil));
  }

  lemma CommitIsHandling<S(!new), V(!new)>(
      cfg: Config<S, V>, d: World<V>, sub: SubId, i: nat, v: int, w: Writes<V>, poisoned: bool, effect: bool, nil: bool)
    requires BaseInv(cfg, d) && sub in cfg.subs && i < |d.messages| && OnlyMarks(w, sub, d.messages[i])
    requires effect ==> !poisoned && Admits(d, w)
    requires !effect && nil ==> poisoned || !(w.marks !! d.processed)
    ensures Handling(cfg, d, InTx(sub, i, v, Marked(w, poisoned)), CommitHandling(effect, nil)) ==
      Some((if effect then Merge(d, w) else d,
        Some(if d.messages[i].version == v + 1 && !nil then Attempting(sub, i) else Finished(sub, i, nil))))
  {
    MarkAdmitsNone(cfg, d, w, sub, d.messages[i]);
  }

  ghost predicate OnlyMarks<V>(w: Writes<V>, sub: SubId, e: Event) {
    w.events == [] && w.outbox == [] && w.marks == {(e.id, sub)}
  }

  // ----- The moves of a delivery -----

  /** The idempotency check, or a failed one. */
  lemma CheckMoves<S(!new), V(!new)>(
      cfg: Config<S, V>, me: Session, sub: SubId, i: nat, d: World<V>, d': World<V>, failed: bool)
      returns (t: Trace<V>)
    requires Inv(cfg, d) && sub in cfg.subs && i < |d.messages| && Rely(cfg, me, d, d')
    ensures t.start == d && t.i == i
    ensures NoLocks(d, me) ==> Along(cfg, me, t, sub, d.messages[i], d',
      if failed then Finished(sub, i, false)
      else if Processed(d', sub, d.messages[i]) then Finished(sub, i, true) else Attempting(sub, i))
  {
    var e := d.messages[i];
    t := Trace(d, i, []);
    if NoLocks(d, me) {
      Begins(cfg, me, sub, i, d);
      var to := if failed then Finished(sub, i, false)
        else if Processed(d', sub, e) then Finished(sub, i, true) else Attempting(sub, i);
      var act := if failed then FailHandling else CheckProcessed;
      t := Moved(cfg, me, t, sub, e, d, d', Received(sub, i), act, d', to);
    }
  }

  /** The version read with the version gate, or a failed read. */
  lemma ReadMoves<S(!new), V(!new)>(
      cfg: Config<S, V>, me: Session, t: Trace<V>, sub: SubId, e: Event, d: World<V>, d': World<V>, ok: bool)
      returns (t': Trace<V>)
    requires Rely(cfg, me, d, d')
    ensures t'.start == t.start && t'.i == t.i
    ensures Along(cfg, me, t, sub, e, d, Attempting(sub, t.i)) ==>
      var v := ViewVersion(d', sub, e.aggId);
      Along(cfg, me, t', sub, e, d',
        if !ok then Attempting(sub, t.i)
        else if e.version <= v + 1 then InTx(sub, t.i, v, Begun)
        else Finished(sub, t.i, false))
  {
    t' := t;
    if !Along(cfg, me, t, sub, e, d, Attempting(sub, t.i)) {
    } else if ok {
      var v := ViewVersion(d', sub, e.aggId);
      var to: Worker<V> := if e.version <= v + 1 then InTx(sub, t.i, v, Begun) else Finished(sub, t.i, false);
      t' := Moved(cfg, me, t, sub, e, d, d', Attempting(sub, t.i), ReadVersion, d', to);
    } else {
      Waits(cfg, me, t, sub, e, d, d', Attempting(sub, t.i));
    }
  }

  /** The handler: it ran, or hid a failure, or left the transaction as it was. */
  lemma RunMoves<S(!new), V(!new)>(
      cfg: Config<S, V>, me: Session, t: Trace<V>, sub: SubId, e: Event, d: World<V>, before: World<V>, v: int,
      stage: Stage<V>, d': World<V>)
      returns (t': Trace<V>)
    requires Rely(cfg, me, d, before) && Inv(cfg, d') && sub in cfg.subs && e.version == v + 1
    requires stage.Begun? || stage.Hidden? ==> d' == before
    requires stage.Hidden? ==> cfg.pooled && cfg.hides
    requires stage.Ran? ==> stage.row == cfg.subs[sub].handle(ViewRow(before, sub, e.aggId), e)
    requires stage.Ran? ==> d' == if cfg.pooled then PooledWrite(cfg, before, sub, e) else before
    requires !stage.Marked?
    ensures t'.start == t.start && t'.i == t.i
    ensures Along(cfg, me, t, sub, e, d, InTx(sub, t.i, v, Begun)) ==>
      Along(cfg, me, t', sub, e, d', InTx(sub, t.i, v, stage))
  {
    t' := t;
    if !Along(cfg, me, t, sub, e, d, InTx(sub, t.i, v, Begun)) {
    } else if stage.Begun? {
      Waits(cfg, me, t, sub, e, d, before, InTx(sub, t.i, v, Begun));
    } else {
      var act := if stage.Hidden? then HideFailure else RunHandler;
      t' := Moved(cfg, me, t, sub, e, d, before, InTx(sub, t.i, v, Begun), act, d', InTx(sub, t.i, v, stage));
    }
  }

  /** The mark becomes pending, or poisons the transaction. */
  lemma MarkMoves<S(!new), V(!new)>(
      cfg: Config<S, V>, me: Session, t: Trace<V>, sub: SubId, e: Event, d: World<V>, d': World<V>, v: int,
      stage: Stage<V>)
      returns (t': Trace<V>)
    requires Along(cfg, me, t, sub, e, d, InTx(sub, t.i, v, stage)) && Rely(cfg, me, d, d')
    requires MayMark(InTx(sub, t.i, v, stage), e)
    ensures t'.start == t.start && t'.i == t.i
    ensures Along(cfg, me, t', sub, e, d',
      InTx(sub, t.i, v, Marked(TxWrites(cfg, sub, e, stage), Processed(d', sub, e))))
  {
    var to := InTx(sub, t.i, v, Marked(TxWrites(cfg, sub, e, stage), Processed(d', sub, e)));
    t' := Moved(cfg, me, t, sub, e, d, d', InTx(sub, t.i, v, stage), MarkProcessed, d', to);
  }

  /** The mark, or a failed statement. */
  lemma MarkOrWait<S(!new), V(!new)>(
      cfg: Config<S, V>, me: Session, t: Trace<V>, sub: SubId, e: Event, d: World<V>, d': World<V>, v: int,
      stage: Stage<V>, ok: bool)
      returns (t': Trace<V>)
    requires Rely(cfg, me, d, d') && (ok ==> MayMark(InTx(sub, t.i, v, stage), e))
    ensures t'.start == t.start && t'.i == t.i
    ensures Along(cfg, me, t, sub, e, d, InTx(sub, t.i, v, stage)) ==>
      Along(cfg, me, t', sub, e, d',
        InTx(sub, t.i, v, if ok then Marked(TxWrites(cfg, sub, e, stage), Processed(d', sub, e)) else stage))
  {
    t' := t;
    if !Along(cfg, me, t, sub, e, d, InTx(sub, t.i, v, stage)) {
    } else if ok {
      t' := MarkMoves(cfg, me, t, sub, e, d, d', v, stage);
    } else {
      Waits(cfg, me, t, sub, e, d, d', InTx(sub, t.i, v, stage));
    }
  }

  /** The transaction is given up, for another attempt or for good. */
  lemma GivenUp<S(!new), V(!new)>(
      cfg: Config<S, V>, me: Session, t: Trace<V>, sub: SubId, e: Event, d: World<V>, wk: Worker<V>, again: bool)
      returns (t': Trace<V>)
    requires Inv(cfg, d) && wk.InTx?
    ensures t'.start == t.start && t'.i == t.i
    ensures Along(cfg, me, t, sub, e, d, wk) ==>
      Along(cfg, me, t', sub, e, d, if again then Attempting(sub, t.i) else Finished(sub, t.i, false))
  {
    t' := t;
    if Along(cfg, me, t, sub, e, d, wk) {
      RelyReflexive(cfg, me, d);
      var to: Worker<V> := if again then Attempting(sub, t.i) else Finished(sub, t.i, false);
      t' := Moved(cfg, me, t, sub, e, d, d, wk, if again then RetryHandling else FailHandling, d, to);
    }
  }

  /** The loop is over: with a result, or because no attempt is left. */
  lemma Ended<S(!new), V(!new)>(
      cfg: Config<S, V>, me: Session, t: Trace<V>, sub: SubId, e: Event, d: World<V>, nil: bool, stop: bool)
      returns (t': Trace<V>)
    requires Inv(cfg, d)
    ensures t'.start == t.start && t'.i == t.i
    ensures Along(cfg, me, t, sub, e, d, if nil || stop then Finished(sub, t.i, nil) else Attempting(sub, t.i)) ==>
      Along(cfg, me, t', sub, e, d, Finished(sub, t.i, nil))
  {
    t' := t;
    if !nil && !stop && Along(cfg, me, t, sub, e, d, Attempting(sub, t.i)) {
      RelyReflexive(cfg, me, d);
      t' := Moved(cfg, me, t, sub, e, d, d, Attempting(sub, t.i), FailHandling, d, Finished(sub, t.i, false));
    }
  }
}
