/** Delivery converges: redelivering the un-acknowledged messages, in any order,
    brings every followed view to the full fold of its stream in a bounded number
    of passes, and then empties the broker. */
module Convergence {
  import opened Events
  import opened World
  import opened Projecting
  import opened Machine
  import opened Runs

  /** What Projection.Handle does to the world when nothing fails or interferes
      (cqrs/projection.go:91-177), and the result it returns. */
  ghost function HandleCalmly<S(!new), V(!new)>(cfg: Config<S, V>, d: World<V>, sub: SubId, e: Event): (World<V>, bool)
    requires sub in cfg.subs
  {
    var v := ViewVersion(d, sub, e.aggId);
    if Processed(d, sub, e) then (d, true)
    else if e.version <= v then (Merge(d, MarkWrites(sub, e)), true)
    else if e.version != v + 1 then (d, false)
    else (RunCalmly(cfg, d, sub, e), true)
  }

  /** The undisturbed transaction of handler and mark. */
  ghost function RunCalmly<S(!new), V(!new)>(cfg: Config<S, V>, d: World<V>, sub: SubId, e: Event): World<V>
    requires sub in cfg.subs
  {
    if cfg.pooled then Merge(PooledWrite(cfg, d, sub, e), MarkWrites(sub, e))
    else Merge(d, HandleWrites(sub, e, cfg.subs[sub].handle(ViewRow(d, sub, e.aggId), e)))
  }

  /** One undisturbed delivery of message i: handle, then ack or nak. */
  ghost function Redeliver<S(!new), V(!new)>(cfg: Config<S, V>, d: World<V>, sub: SubId, i: nat): World<V>
    requires sub in cfg.subs
  {
    if i >= |d.messages| || d.messages[i].aggType != cfg.subs[sub].topic || (i, sub) in d.acked then d
    else
      var (d', ok) := HandleCalmly(cfg, d, sub, d.messages[i]);
      if ok then d'.(acked := d'.acked + {(i, sub)}) else d'
  }

  ghost function Pass<S(!new), V(!new)>(cfg: Config<S, V>, d: World<V>, sub: SubId, order: seq<nat>): World<V>
    requires sub in cfg.subs
    decreases |order|
  {
    if order == [] then d else Pass(cfg, Redeliver(cfg, d, sub, order[0]), sub, order[1..])
  }

  /** Every un-acknowledged message is in the pass, anywhere. */
  ghost predicate Covers<V>(d: World<V>, sub: SubId, order: seq<nat>) {
    forall i: nat :: i < |d.messages| && (i, sub) !in d.acked ==> i in order
  }

  ghost function Passes<S(!new), V(!new)>(
      cfg: Config<S, V>, d: World<V>, sub: SubId, orders: seq<seq<nat>>): World<V>
    requires sub in cfg.subs
    decreases |orders|
  {
    if orders == [] then d else Passes(cfg, Pass(cfg, d, sub, orders[0]), sub, orders[1..])
  }

  ghost predicate AllCover<S(!new), V(!new)>(cfg: Config<S, V>, d: World<V>, sub: SubId, orders: seq<seq<nat>>)
    requires sub in cfg.subs
    decreases |orders|
  {
    orders == [] ||
    (Covers(d, sub, orders[0]) && AllCover(cfg, Pass(cfg, d, sub, orders[0]), sub, orders[1..]))
  }

  /** The subscriber listens to all events of the stream. */
  ghost predicate OnTopic<S(!new), V(!new)>(cfg: Config<S, V>, d: World<V>, sub: SubId, a: AggId)
    requires sub in cfg.subs
  {
    forall e :: e in Stream(d.events, a) ==> e.aggType == cfg.subs[sub].topic && e.aggType != ""
  }

  /** The handler follows the stream, whichever way it writes; the view is a fold of it
      and has every event that is processed. */
  ghost predicate Live<S(!new), V(!new)>(cfg: Config<S, V>, d: World<V>, sub: SubId, a: AggId) {
    Suited(cfg, d, sub, a) && ViewIsFold(cfg, d, sub, a) && ProcessedAreSeen(d, sub, a)
  }

  /** With a handler that writes in the transaction it always is so. */
  lemma FollowedIsLive<S(!new), V(!new)>(cfg: Config<S, V>, d: World<V>, sub: SubId, a: AggId)
    requires Inv(cfg, d)
    ensures Followed(cfg, d, sub, a) ==> Live(cfg, d, sub, a)
  {
    assert Followed(cfg, d, sub, a) ==> ViewOk(cfg, d, sub, a);
  }

  /** What is live stays live, and its view only advances. */
  ghost predicate KeepsLive<S(!new), V(!new)>(cfg: Config<S, V>, d: World<V>, d': World<V>, sub: SubId) {
    forall a :: Live(cfg, d, sub, a) ==>
      Live(cfg, d', sub, a) && ViewVersion(d, sub, a) <= ViewVersion(d', sub, a)
  }

  /** Nothing is waiting in the outbox. */
  ghost predicate OutboxDrained<V>(d: World<V>) {
    forall row :: row in d.outbox ==> row.published
  }

  /** Deliveries touch neither log nor outbox nor broker stream. */
  ghost predicate SameLog<V>(d: World<V>, d': World<V>) {
    d'.events == d.events && d'.outbox == d.outbox && d'.messages == d.messages
  }

  lemma HandleCalmlyKeeps<S(!new), V(!new)>(cfg: Config<S, V>, d: World<V>, sub: SubId, e: Event)
    requires Inv(cfg, d) && sub in cfg.subs && e in d.events
    ensures var (d', ok) := HandleCalmly(cfg, d, sub, e);
      && Inv(cfg, d') && Grows(cfg, d, d') && SameLog(d, d') && d'.locks == d.locks && d'.acked == d.acked
      && (ok ==> Processed(d', sub, e))
      && KeepsLive(cfg, d, d', sub)
  {
    GrowsReflexive(cfg, d);
    if Processed(d, sub, e) {
    } else if e.version <= ViewVersion(d, sub, e.aggId) {
      MarkCalmlyKeeps(cfg, d, sub, e);
    } else if e.version == ViewVersion(d, sub, e.aggId) + 1 {
      RunCalmlyKeeps(cfg, d, sub, e);
      RunKeepsLive(cfg, d, sub, e);
    }
  }

  lemma MarkCalmlyKeeps<S(!new), V(!new)>(cfg: Config<S, V>, d: World<V>, sub: SubId, e: Event)
    requires Inv(cfg, d) && sub in cfg.subs && e in d.events && e.version <= ViewVersion(d, sub, e.aggId)
    ensures var d' := Merge(d, MarkWrites(sub, e));
      && Inv(cfg, d') && Grows(cfg, d, d') && SameLog(d, d') && d'.locks == d.locks && d'.acked == d.acked
      && Processed(d', sub, e)
      && KeepsLive(cfg, d, d', sub)
  {
    MarkKeepsInv(cfg, d, sub, e);
    ProjectionMerge(d, MarkWrites(sub, e), sub, e, None);
    SeenStaysSeen(cfg, d, Merge(d, MarkWrites(sub, e)), sub, e);
  }

  lemma RunCalmlyKeeps<S(!new), V(!new)>(cfg: Config<S, V>, d: World<V>, sub: SubId, e: Event)
    requires Inv(cfg, d) && sub in cfg.subs && e in d.events && !Processed(d, sub, e)
    requires e.version == ViewVersion(d, sub, e.aggId) + 1
    ensures var d' := RunCalmly(cfg, d, sub, e);
      && Inv(cfg, d') && Grows(cfg, d, d') && SameLog(d, d') && d'.locks == d.locks && d'.acked == d.acked
      && Processed(d', sub, e)
  {
    RunCalmlyRows(cfg, d, sub, e);
    if cfg.pooled {
      var mid := PooledWrite(cfg, d, sub, e);
      PoolKeepsInv(cfg, d, sub, e);
      MarkKeepsInv(cfg, mid, sub, e);
      GrowsTransitive(cfg, d, mid, RunCalmly(cfg, d, sub, e));
    } else {
      HandlerMakesRowReady(cfg, d, sub, e);
      HandleKeepsInv(cfg, d, sub, e, cfg.subs[sub].handle(ViewRow(d, sub, e.aggId), e));
    }
  }

  /** Whichever way the handler writes: its row, and one mark. */
  lemma RunCalmlyRows<S(!new), V(!new)>(cfg: Config<S, V>, d: World<V>, sub: SubId, e: Event)
    requires sub in cfg.subs
    ensures var d' := RunCalmly(cfg, d, sub, e);
      && d' == d.(processed := d.processed + {(e.id, sub)}, views := d'.views, applied := d'.applied)
      && ViewRow(d', sub, e.aggId) == cfg.subs[sub].handle(ViewRow(d, sub, e.aggId), e)
      && forall a :: a != e.aggId ==> ViewRow(d', sub, a) == ViewRow(d, sub, a)
  {
    var row := cfg.subs[sub].handle(ViewRow(d, sub, e.aggId), e);
    if cfg.pooled {
      ProjectionMerge(PooledWrite(cfg, d, sub, e), MarkWrites(sub, e), sub, e, None);
    } else {
      ProjectionMerge(d, HandleWrites(sub, e, row), sub, e, row);
    }
  }

  /** The undisturbed handler moves a live view by one event. */
  lemma RunKeepsLive<S(!new), V(!new)>(cfg: Config<S, V>, d: World<V>, sub: SubId, e: Event)
    requires Inv(cfg, d) && sub in cfg.subs && e in d.events && e.version == ViewVersion(d, sub, e.aggId) + 1
    ensures var d' := RunCalmly(cfg, d, sub, e);
      KeepsLive(cfg, d, d', sub) && (Live(cfg, d, sub, e.aggId) ==> ViewVersion(d', sub, e.aggId) == e.version)
  {
    RunCalmlyRows(cfg, d, sub, e);
    if Live(cfg, d, sub, e.aggId) {
      RowAtVersion(d.events, e);
      FoldStep(cfg.subs[sub], Stream(d.events, e.aggId), e.version - 1);
    }
    SeenStaysSeen(cfg, d, RunCalmly(cfg, d, sub, e), sub, e);
  }

  /** Marking an event that the view has by then leaves every stream live. */
  lemma SeenStaysSeen<S(!new), V(!new)>(cfg: Config<S, V>, d: World<V>, d': World<V>, sub: SubId, e: Event)
    requires UniqueIds(d.events) && e in d.events && d'.events == d.events && sub in cfg.subs
    requires d'.processed == d.processed + {(e.id, sub)}
    requires forall a :: a != e.aggId ==> ViewRow(d', sub, a) == ViewRow(d, sub, a)
    requires Live(cfg, d, sub, e.aggId) ==> ViewIsFold(cfg, d', sub, e.aggId)
    requires Live(cfg, d, sub, e.aggId) ==> ViewVersion(d, sub, e.aggId) <= ViewVersion(d', sub, e.aggId)
    requires Live(cfg, d, sub, e.aggId) ==> e.version <= ViewVersion(d', sub, e.aggId)
    ensures KeepsLive(cfg, d, d', sub)
  {
    forall a | Live(cfg, d, sub, a)
      ensures Live(cfg, d', sub, a) && ViewVersion(d, sub, a) <= ViewVersion(d', sub, a)
    {
      forall x | x in d'.events && x.aggId == a && (x.id, sub) in d'.processed
        ensures x.version <= ViewVersion(d', sub, a)
      {
        if x.id == e.id {
          SameId(d.events, x, e);
        }
      }
    }
  }

  /** What one delivery of message i does: what the view has is acknowledged, and a live
      view that was waiting for the event has it. */
  ghost predicate Delivered<S(!new), V(!new)>(cfg: Config<S, V>, d: World<V>, d': World<V>, sub: SubId, i: nat)
    requires i < |d.messages|
  {
    var e := d.messages[i];
    var v := ViewVersion(d, sub, e.aggId);
    && (Processed(d, sub, e) || e.version <= v ==> (i, sub) in d'.acked)
    && (Live(cfg, d, sub, e.aggId) && v == e.version - 1 ==> ViewVersion(d', sub, e.aggId) >= e.version)
  }

  lemma RedeliverEffect<S(!new), V(!new)>(cfg: Config<S, V>, d: World<V>, sub: SubId, i: nat)
    requires Inv(cfg, d) && sub in cfg.subs
    ensures var d' := Redeliver(cfg, d, sub, i);
      && Inv(cfg, d') && Grows(cfg, d, d') && SameLog(d, d') && KeepsLive(cfg, d, d', sub)
      && (i < |d.messages| && d.messages[i].aggType == cfg.subs[sub].topic ==> Delivered(cfg, d, d', sub, i))
  {
    GrowsReflexive(cfg, d);
    if i < |d.messages| && d.messages[i].aggType == cfg.subs[sub].topic && (i, sub) !in d.acked {
      HandleThenAck(cfg, d, sub, i);
    }
  }

  lemma HandleThenAck<S(!new), V(!new)>(cfg: Config<S, V>, d: World<V>, sub: SubId, i: nat)
    requires Inv(cfg, d) && sub in cfg.subs && i < |d.messages| && (i, sub) !in d.acked
    requires d.messages[i].aggType == cfg.subs[sub].topic
    ensures var d' := Redeliver(cfg, d, sub, i);
      && Inv(cfg, d') && Grows(cfg, d, d') && SameLog(d, d') && KeepsLive(cfg, d, d', sub)
      && Delivered(cfg, d, d', sub, i)
  {
    var e := d.messages[i];
    var (mid, ok) := HandleCalmly(cfg, d, sub, e);
    HandleCalmlyKeeps(cfg, d, sub, e);
    if ok {
      AckKeepsInv(cfg, mid, sub, i);
      GrowsTransitive(cfg, d, mid, Redeliver(cfg, d, sub, i));
      AckKeepsLive(cfg, mid, sub, i);
    }
    if Live(cfg, d, sub, e.aggId) && ViewVersion(d, sub, e.aggId) == e.version - 1 {
      RunKeepsLive(cfg, d, sub, e);
      assert ViewRow(Redeliver(cfg, d, sub, i), sub, e.aggId) == ViewRow(mid, sub, e.aggId);
    }
  }

  lemma AckKeepsLive<S(!new), V(!new)>(cfg: Config<S, V>, d: World<V>, sub: SubId, i: nat)
    ensures KeepsLive(cfg, d, d.(acked := d.acked + {(i, sub)}), sub)
  {
    forall a | Live(cfg, d, sub, a)
      ensures Live(cfg, d.(acked := d.acked + {(i, sub)}), sub, a)
      ensures ViewRow(d.(acked := d.acked + {(i, sub)}), sub, a) == ViewRow(d, sub, a)
    {
    }
  }

  lemma {:induction false} PassEffect<S(!new), V(!new)>(cfg: Config<S, V>, d: World<V>, sub: SubId, order: seq<nat>)
    requires Inv(cfg, d) && sub in cfg.subs
    ensures var d' := Pass(cfg, d, sub, order);
      Inv(cfg, d') && Grows(cfg, d, d') && SameLog(d, d') && KeepsLive(cfg, d, d', sub)
    decreases |order|
  {
    if order == [] {
      GrowsReflexive(cfg, d);
    } else {
      var mid := Redeliver(cfg, d, sub, order[0]);
      RedeliverEffect(cfg, d, sub, order[0]);
      PassEffect(cfg, mid, sub, order[1..]);
      GrowsTransitive(cfg, d, mid, Pass(cfg, d, sub, order));
    }
  }

  /** Wherever message i comes in the pass, a view waiting for it moves on. */
  lemma {:induction false} PassHandles<S(!new), V(!new)>(
      cfg: Config<S, V>, d: World<V>, sub: SubId, order: seq<nat>, i: nat)
    requires Inv(cfg, d) && sub in cfg.subs && i in order && i < |d.messages|
    requires d.messages[i].aggType == cfg.subs[sub].topic && Live(cfg, d, sub, d.messages[i].aggId)
    ensures var e, d' := d.messages[i], Pass(cfg, d, sub, order);
      && (e.version - 1 <= ViewVersion(d, sub, e.aggId) ==> e.version <= ViewVersion(d', sub, e.aggId))
      && (e.version <= ViewVersion(d, sub, e.aggId) ==> (i, sub) in d'.acked)
    decreases |order|
  {
    var e := d.messages[i];
    var mid := Redeliver(cfg, d, sub, order[0]);
    RedeliverEffect(cfg, d, sub, order[0]);
    PassEffect(cfg, mid, sub, order[1..]);
    if i != order[0] {
      assert i in order[1..];
      PassHandles(cfg, mid, sub, order[1..], i);
    }
  }

  /** The next event of a lagging view is with the broker, not acknowledged. */
  lemma NextIsWaiting<S(!new), V(!new)>(cfg: Config<S, V>, d: World<V>, sub: SubId, a: AggId) returns (i: nat)
    requires Inv(cfg, d) && Live(cfg, d, sub, a) && OutboxDrained(d) && OnTopic(cfg, d, sub, a)
    requires ViewVersion(d, sub, a) < |Stream(d.events, a)|
    ensures i < |d.messages| && (i, sub) !in d.acked && d.messages[i] == Stream(d.events, a)[ViewVersion(d, sub, a)]
    ensures d.messages[i].aggId == a && d.messages[i].version == ViewVersion(d, sub, a) + 1
    ensures d.messages[i].aggType == cfg.subs[sub].topic
  {
    var e := Stream(d.events, a)[ViewVersion(d, sub, a)];
    StreamMembers(d.events, a);
    assert e in Stream(d.events, a);
    var j :| 0 <= j < |d.events| && d.events[j] == e;
    assert OutboxEvents(d.outbox)[j] == e;
    assert d.outbox[j] in d.outbox;
    i :| i < |d.messages| && d.messages[i] == e;
  }

  /** With a drained outbox, a pass moves every lagging view at least one step. */
  lemma PassAdvances<S(!new), V(!new)>(cfg: Config<S, V>, d: World<V>, sub: SubId, order: seq<nat>, a: AggId)
    requires Inv(cfg, d) && Live(cfg, d, sub, a) && OutboxDrained(d)
    requires Covers(d, sub, order) && OnTopic(cfg, d, sub, a)
    requires ViewVersion(d, sub, a) < |Stream(d.events, a)|
    ensures ViewVersion(d, sub, a) + 1 <= ViewVersion(Pass(cfg, d, sub, order), sub, a)
  {
    var i := NextIsWaiting(cfg, d, sub, a);
    PassHandles(cfg, d, sub, order, i);
  }

  lemma {:induction false} PassesEffect<S(!new), V(!new)>(
      cfg: Config<S, V>, d: World<V>, sub: SubId, orders: seq<seq<nat>>, a: AggId)
    requires Inv(cfg, d) && Live(cfg, d, sub, a) && OutboxDrained(d)
    requires AllCover(cfg, d, sub, orders) && OnTopic(cfg, d, sub, a)
    ensures var d', n := Passes(cfg, d, sub, orders), |Stream(d.events, a)|;
      && Inv(cfg, d') && Grows(cfg, d, d') && SameLog(d, d') && Live(cfg, d', sub, a)
      && (ViewVersion(d', sub, a) == n || ViewVersion(d', sub, a) >= ViewVersion(d, sub, a) + |orders|)
    decreases |orders|
  {
    if orders == [] {
      GrowsReflexive(cfg, d);
    } else {
      var mid := Pass(cfg, d, sub, orders[0]);
      PassEffect(cfg, d, sub, orders[0]);
      if ViewVersion(d, sub, a) < |Stream(d.events, a)| {
        PassAdvances(cfg, d, sub, orders[0], a);
      }
      PassesEffect(cfg, mid, sub, orders[1..], a);
      var d' := Passes(cfg, d, sub, orders);
      GrowsTransitive(cfg, d, mid, d');
    }
  }

  /** After as many passes as the stream has events, its view is the fold of the
      whole stream. */
  lemma ViewsConverge<S(!new), V(!new)>(cfg: Config<S, V>, d: World<V>, sub: SubId, orders: seq<seq<nat>>, a: AggId)
    requires Inv(cfg, d) && Live(cfg, d, sub, a) && OutboxDrained(d)
    requires AllCover(cfg, d, sub, orders) && OnTopic(cfg, d, sub, a)
    requires |Stream(d.events, a)| <= |orders|
    ensures var d' := Passes(cfg, d, sub, orders);
      && SameLog(d, d')
      && ViewVersion(d', sub, a) == |Stream(d.events, a)|
      && ViewRow(d', sub, a) == ViewFold(cfg.subs[sub], Stream(d.events, a))
  {
    PassesEffect(cfg, d, sub, orders, a);
    var d' := Passes(cfg, d, sub, orders);
    assert Stream(d.events, a)[..|Stream(d.events, a)|] == Stream(d.events, a);
  }

  /** One more pass acknowledges every remaining copy. */
  lemma LastPassAcknowledges<S(!new), V(!new)>(
      cfg: Config<S, V>, d: World<V>, sub: SubId, orders: seq<seq<nat>>, last: seq<nat>, i: nat)
    requires Inv(cfg, d) && sub in cfg.subs && OutboxDrained(d) && AllCover(cfg, d, sub, orders)
    requires Covers(Passes(cfg, d, sub, orders), sub, last)
    requires i < |d.messages| && d.messages[i].aggType == cfg.subs[sub].topic
    requires Live(cfg, d, sub, d.messages[i].aggId) && OnTopic(cfg, d, sub, d.messages[i].aggId)
    requires |Stream(d.events, d.messages[i].aggId)| <= |orders|
    ensures (i, sub) in Pass(cfg, Passes(cfg, d, sub, orders), sub, last).acked
  {
    var e := d.messages[i];
    var d' := Passes(cfg, d, sub, orders);
    PassesEffect(cfg, d, sub, orders, e.aggId);
    ViewsConverge(cfg, d, sub, orders, e.aggId);
    RowAtVersion(d.events, e);
    if (i, sub) in d'.acked {
      PassEffect(cfg, d', sub, last);
    } else {
      PassHandles(cfg, d', sub, last, i);
    }
  }

  // ----- Deliveries are runs of the machine -----

  /** The undisturbed transaction of an event that is next. */
  lemma TransactionIsRun<S(!new), V(!new)>(cfg: Config<S, V>, s: System<S, V>, p: nat, sub: SubId, i: nat)
      returns (run: seq<Step>)
    requires Inv(cfg, s.world) && p !in s.workers && sub in cfg.subs && i < |s.world.messages|
    requires (i, sub) !in s.world.acked && s.world.messages[i].aggType == cfg.subs[sub].topic
    requires !Processed(s.world, sub, s.world.messages[i])
    requires s.world.messages[i].version == ViewVersion(s.world, sub, s.world.messages[i].aggId) + 1
    ensures After(cfg, s, run) ==
      Some(At(s, p, RunCalmly(cfg, s.world, sub, s.world.messages[i]), Finished(sub, i, true)))
  {
    var d, e := s.world, s.world.messages[i];
    var v := ViewVersion(d, sub, e.aggId);
    var row := cfg.subs[sub].handle(ViewRow(d, sub, e.aggId), e);
    var d' := if cfg.pooled then PooledWrite(cfg, d, sub, e) else d;
    run := Gated(cfg, s, p, sub, i);
    run := Act(cfg, s, p, run, d, InTx(sub, i, v, Begun), RunHandler, d', InTx(sub, i, v, Ran(row)));
    run := MarkedAndCommitted(cfg, s, p, run, d', sub, i, v, Ran(row));
  }

  /** An undisturbed delivery is a run of the machine, whatever handlers do. */
  lemma RedeliverIsRun<S(!new), V(!new)>(cfg: Config<S, V>, s: System<S, V>, p: nat, sub: SubId, i: nat)
      returns (run: seq<Step>)
    requires Inv(cfg, s.world) && sub in cfg.subs && p !in s.workers
    ensures After(cfg, s, run) == Some(s.(world := Redeliver(cfg, s.world, sub, i)))
  {
    var d := s.world;
    if i >= |d.messages| || d.messages[i].aggType != cfg.subs[sub].topic || (i, sub) in d.acked {
      run := [];
    } else {
      var e := d.messages[i];
      var v := ViewVersion(d, sub, e.aggId);
      var (d', ok) := HandleCalmly(cfg, d, sub, e);
      HandleCalmlyKeeps(cfg, d, sub, e);
      if Processed(d, sub, e) {
        run := Fetched(cfg, s, p, sub, i);
        run := Act(cfg, s, p, run, d, Received(sub, i), CheckProcessed, d, Finished(sub, i, true));
      } else if e.version <= v {
        run := Gated(cfg, s, p, sub, i);
        run := MarkedAndCommitted(cfg, s, p, run, d, sub, i, v, Begun);
      } else if e.version == v + 1 {
        run := TransactionIsRun(cfg, s, p, sub, i);
      } else {
        run := Fetched(cfg, s, p, sub, i);
        run := Act(cfg, s, p, run, d, Received(sub, i), CheckProcessed, d, Attempting(sub, i));
        run := Act(cfg, s, p, run, d, Attempting(sub, i), ReadVersion, d, Finished(sub, i, false));
      }
      run := Settled(cfg, s, p, run, d', sub, i, ok);
    }
  }

  lemma {:induction false} PassIsRun<S(!new), V(!new)>(
      cfg: Config<S, V>, s: System<S, V>, p: nat, sub: SubId, order: seq<nat>)
      returns (run: seq<Step>)
    requires Inv(cfg, s.world) && sub in cfg.subs && p !in s.workers
    ensures After(cfg, s, run) == Some(s.(world := Pass(cfg, s.world, sub, order)))
    decreases |order|
  {
    if order == [] {
      run := [];
    } else {
      var mid := s.(world := Redeliver(cfg, s.world, sub, order[0]));
      RedeliverEffect(cfg, s.world, sub, order[0]);
      var first := RedeliverIsRun(cfg, s, p, sub, order[0]);
      var rest := PassIsRun(cfg, mid, p, sub, order[1..]);
      run := first + rest;
      AfterConcat(cfg, s, first, mid, rest, s.(world := Pass(cfg, s.world, sub, order)));
    }
  }

  lemma {:induction false} PassesAreRun<S(!new), V(!new)>(
      cfg: Config<S, V>, s: System<S, V>, p: nat, sub: SubId, orders: seq<seq<nat>>)
      returns (run: seq<Step>)
    requires Inv(cfg, s.world) && sub in cfg.subs && p !in s.workers
    ensures After(cfg, s, run) == Some(s.(world := Passes(cfg, s.world, sub, orders)))
    decreases |orders|
  {
    if orders == [] {
      run := [];
    } else {
      var mid := s.(world := Pass(cfg, s.world, sub, orders[0]));
      PassEffect(cfg, s.world, sub, orders[0]);
      var first := PassIsRun(cfg, s, p, sub, orders[0]);
      var rest := PassesAreRun(cfg, mid, p, sub, orders[1..]);
      run := first + rest;
      AfterConcat(cfg, s, first, mid, rest, s.(world := Passes(cfg, s.world, sub, orders)));
    }
  }

  /** Convergence.  From any reachable state with a drained outbox and one idle
      worker, whatever the other processes are in the middle of, any sequence of
      covering passes is a run of the machine to a state in which every live view,
      whose stream is on the topic and no longer than the sequence, is the fold of
      its whole stream. */
  lemma DeliveryConverges<S(!new), V(!new)>(
      cfg: Config<S, V>, s: System<S, V>, p: nat, sub: SubId, orders: seq<seq<nat>>)
      returns (run: seq<Step>, s': System<S, V>)
    requires Reachable(cfg, s) && sub in cfg.subs && p !in s.workers
    requires OutboxDrained(s.world) && AllCover(cfg, s.world, sub, orders)
    ensures After(cfg, s, run) == Some(s') && s'.world.events == s.world.events
    ensures forall a :: Live(cfg, s.world, sub, a) && OnTopic(cfg, s.world, sub, a) ==>
      |Stream(s.world.events, a)| <= |orders| ==>
      ViewRow(s'.world, sub, a) == ViewFold(cfg.subs[sub], Stream(s'.world.events, a))
  {
    ReachableInv(cfg, s);
    run := PassesAreRun(cfg, s, p, sub, orders);
    s' := s.(world := Passes(cfg, s.world, sub, orders));
    PassesKeepLog(cfg, s.world, sub, orders);
    forall a | Live(cfg, s.world, sub, a) && OnTopic(cfg, s.world, sub, a) && |Stream(s.world.events, a)| <= |orders|
      ensures ViewRow(s'.world, sub, a) == ViewFold(cfg.subs[sub], Stream(s'.world.events, a))
    {
      ViewsConverge(cfg, s.world, sub, orders, a);
    }
  }

  lemma {:induction false} PassesKeepLog<S(!new), V(!new)>(
      cfg: Config<S, V>, d: World<V>, sub: SubId, orders: seq<seq<nat>>)
    requires Inv(cfg, d) && sub in cfg.subs
    ensures var d' := Passes(cfg, d, sub, orders); SameLog(d, d') && Inv(cfg, d')
    decreases |orders|
  {
    if orders != [] {
      PassEffect(cfg, d, sub, orders[0]);
      PassesKeepLog(cfg, Pass(cfg, d, sub, orders[0]), sub, orders[1..]);
    }
  }
}
