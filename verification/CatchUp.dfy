/** The read side can always catch up: from every reachable state, however badly
    its processes were interrupted, the system can reach a state in which nothing
    is waiting anywhere and every live view shows its whole stream. */
module CatchUp {
  import opened Events
  import opened World
  import opened Relaying
  import opened Machine
  import opened Runs
  import opened Draining
  import opened Convergence
  import opened Refinement

  /** All relays crash, and the database gives up the row locks. */
  lemma {:induction false} Release<S(!new), V(!new)>(
      cfg: Config<S, V>, s: System<S, V>, rs: set<Session>) returns (run: seq<Step>)
    requires s.relays.Keys <= rs && forall id :: id in s.world.locks ==> s.world.locks[id] in rs
    ensures After(cfg, s, run) == Some(s.(world := s.world.(locks := map[]), relays := map[]))
    decreases |rs|
  {
    if rs == {} {
      assert s.relays == map[] && s.world.locks == map[];
      run := [];
    } else {
      var r :| r in rs;
      var mid := s.(world := Unlock(s.world, r), relays := s.relays - {r});
      var rest := Release(cfg, mid, rs - {r});
      run := [ByRelay(r, RollbackRelay)] + rest;
      Then(cfg, s, ByRelay(r, RollbackRelay), mid, rest, s.(world := s.world.(locks := map[]), relays := map[]));
    }
  }

  /** One poll that finds something. */
  lemma PollStep<S(!new), V(!new)>(cfg: Config<S, V>, s: System<S, V>, r: Session)
      returns (run: seq<Step>, s': System<S, V>, batch: seq<Event>)
    requires cfg.batchSize > 0 && s.relays == map[] && s.world.locks == map[] && UniqueIds(OutboxEvents(s.world.outbox))
    requires Pending(s.world.outbox) != {}
    ensures After(cfg, s, run) == Some(s') && s' == s.(world := s'.world)
    ensures s'.world == s.world.(outbox := s'.world.outbox, messages := s.world.messages + WithTopic(batch))
    ensures OutboxEvents(s'.world.outbox) == OutboxEvents(s.world.outbox)
    ensures |Pending(s'.world.outbox)| < |Pending(s.world.outbox)|
    ensures forall e :: e in Pending(s.world.outbox) <==> e in batch || e in Pending(s'.world.outbox)
  {
    var d := s.world;
    batch := Oldest(d, cfg.batchSize);
    PollEffect(d, r, batch);
    PollPending(d, r, cfg.batchSize, batch);
    PollCount(d, r, cfg.batchSize, batch);
    run := PollIsRun(cfg, s, r, batch);
    s' := s.(world := Poll(d, r, batch));
  }

  lemma SentInOrder(messages: seq<Event>, batch: seq<Event>, more: seq<Event>)
    ensures messages + WithTopic(batch) + WithTopic(more) == messages + WithTopic(batch + more)
  {
    WithTopicConcat(batch, more);
  }

  /** One relay polls until the outbox is empty. */
  lemma {:induction false} DrainRun<S(!new), V(!new)>(cfg: Config<S, V>, s: System<S, V>, r: Session)
      returns (run: seq<Step>, s': System<S, V>, flat: seq<Event>)
    requires cfg.batchSize > 0 && s.relays == map[] && s.world.locks == map[] && UniqueIds(OutboxEvents(s.world.outbox))
    ensures After(cfg, s, run) == Some(s') && s' == s.(world := s'.world)
    ensures s'.world == s.world.(outbox := s'.world.outbox, messages := s.world.messages + WithTopic(flat))
    ensures Pending(s'.world.outbox) == {} && OutboxEvents(s'.world.outbox) == OutboxEvents(s.world.outbox)
    ensures forall e :: e in flat <==> e in Pending(s.world.outbox)
    decreases |Pending(s.world.outbox)|
  {
    if Pending(s.world.outbox) == {} {
      run, s', flat := [], s, [];
      assert s.world.messages + [] == s.world.messages;
    } else {
      var first, mid, batch := PollStep(cfg, s, r);
      var rest, more;
      rest, s', more := DrainRun(cfg, mid, r);
      run, flat := first + rest, batch + more;
      AfterConcat(cfg, s, first, mid, rest, s');
      SentInOrder(s.world.messages, batch, more);
      assert forall e :: e in flat <==> e in batch || e in more;
    }
  }

  /** A pass over all messages, and as many of them as wanted. */
  function Everything(n: nat): (order: seq<nat>)
    ensures forall i: nat :: i in order <==> i < n
  {
    if n == 0 then [] else Everything(n - 1) + [n - 1]
  }

  function Again(order: seq<nat>, times: nat): (orders: seq<seq<nat>>)
    ensures |orders| == times
  {
    if times == 0 then [] else [order] + Again(order, times - 1)
  }

  lemma {:induction false} EverythingCovers<S(!new), V(!new)>(
      cfg: Config<S, V>, d: World<V>, sub: SubId, times: nat)
    requires Inv(cfg, d) && sub in cfg.subs
    ensures AllCover(cfg, d, sub, Again(Everything(|d.messages|), times))
    decreases times
  {
    if times > 0 {
      var order := Everything(|d.messages|);
      PassEffect(cfg, d, sub, order);
      EverythingCovers(cfg, Pass(cfg, d, sub, order), sub, times - 1);
      assert Again(order, times)[1..] == Again(order, times - 1);
    }
  }

  lemma {:induction false} StreamNotLonger(rows: seq<Event>, a: AggId)
    ensures |Stream(rows, a)| <= |rows|
  {
    if rows != [] {
      StreamNotLonger(rows[..|rows| - 1], a);
    }
  }

  lemma DrainedMeansPublished(rows: seq<OutboxRow>)
    requires Pending(rows) == {}
    ensures forall row :: row in rows ==> row.published
  {
    forall row | row in rows
      ensures row.published
    {
      assert !row.published ==> row.evt in Pending(rows);
    }
  }

  /** With a drained outbox: passes, and one more, bring all live views up to date and
      acknowledge every message of their streams. */
  lemma DeliverAll<S(!new), V(!new)>(cfg: Config<S, V>, s: System<S, V>, p: nat, sub: SubId)
      returns (run: seq<Step>, s': System<S, V>)
    requires Inv(cfg, s.world) && sub in cfg.subs && p !in s.workers && OutboxDrained(s.world)
    ensures After(cfg, s, run) == Some(s') && SameLog(s.world, s'.world)
    ensures forall a :: Live(cfg, s.world, sub, a) && OnTopic(cfg, s.world, sub, a) ==> UpToDate(cfg, s'.world, sub, a)
  {
    var d := s.world;
    var order := Everything(|d.messages|);
    var orders := Again(order, |d.events|);
    EverythingCovers(cfg, d, sub, |d.events|);
    PassesKeepLog(cfg, d, sub, orders);
    var d1 := Passes(cfg, d, sub, orders);
    var mid := s.(world := d1);
    PassEffect(cfg, d1, sub, order);
    s' := s.(world := Pass(cfg, d1, sub, order));
    var first := PassesAreRun(cfg, s, p, sub, orders);
    var last := PassIsRun(cfg, mid, p, sub, order);
    run := first + last;
    AfterConcat(cfg, s, first, mid, last, s');
    forall a | Live(cfg, d, sub, a) && OnTopic(cfg, d, sub, a)
      ensures UpToDate(cfg, s'.world, sub, a)
    {
      CaughtUp(cfg, d, sub, orders, order, a);
    }
  }

  /** The view is the fold of the whole stream, and no message of the aggregate is
      waiting for the subscriber. */
  ghost predicate UpToDate<S(!new), V(!new)>(cfg: Config<S, V>, d: World<V>, sub: SubId, a: AggId)
    requires sub in cfg.subs
  {
    && ViewVersion(d, sub, a) == |Stream(d.events, a)|
    && ViewRow(d, sub, a) == ViewFold(cfg.subs[sub], Stream(d.events, a))
    && forall i :: 0 <= i < |d.messages| && d.messages[i].aggId == a ==>
      d.messages[i].aggType == cfg.subs[sub].topic ==> (i, sub) in d.acked
  }

  lemma CaughtUp<S(!new), V(!new)>(
      cfg: Config<S, V>, d: World<V>, sub: SubId, orders: seq<seq<nat>>, order: seq<nat>, a: AggId)
    requires Inv(cfg, d) && Live(cfg, d, sub, a) && OutboxDrained(d) && OnTopic(cfg, d, sub, a)
    requires AllCover(cfg, d, sub, orders) && |orders| == |d.events| && order == Everything(|d.messages|)
    ensures UpToDate(cfg, Pass(cfg, Passes(cfg, d, sub, orders), sub, order), sub, a)
  {
    var d1 := Passes(cfg, d, sub, orders);
    var d' := Pass(cfg, d1, sub, order);
    StreamNotLonger(d.events, a);
    ViewsConverge(cfg, d, sub, orders, a);
    PassesEffect(cfg, d, sub, orders, a);
    PassEffect(cfg, d1, sub, order);
    assert Stream(d.events, a)[..|Stream(d.events, a)|] == Stream(d.events, a);
    forall i | 0 <= i < |d'.messages| && d'.messages[i].aggId == a && d'.messages[i].aggType == cfg.subs[sub].topic
      ensures (i, sub) in d'.acked
    {
      LastPassAcknowledges(cfg, d, sub, orders, order, i);
    }
  }

  /** Every committed event has the type of its aggregate, and so every stream is on
      the topic of a subscriber to that type. */
  lemma AllOnTopic<S(!new), V(!new)>(cfg: Config<S, V>, s: System<S, V>, sub: SubId)
    requires Reachable(cfg, s) && sub in cfg.subs && cfg.subs[sub].topic == cfg.spec.aggType != ""
    ensures forall a :: OnTopic(cfg, s.world, sub, a)
  {
    ReachableInv(cfg, s);
    forall a
      ensures OnTopic(cfg, s.world, sub, a)
    {
      StreamMembers(s.world.events, a);
      forall e | e in Stream(s.world.events, a)
        ensures e.aggType == cfg.spec.aggType
      {
        assert Tracked(cfg, e);
      }
    }
  }

  /** Draining touches nothing that a projection reads. */
  lemma SameIsLive<S(!new), V(!new)>(cfg: Config<S, V>, d: World<V>, d': World<V>, sub: SubId, a: AggId)
    requires d'.events == d.events && d'.views == d.views && d'.processed == d.processed && Live(cfg, d, sub, a)
    ensures Live(cfg, d', sub, a)
  {
    assert ViewRow(d', sub, a) == ViewRow(d, sub, a);
  }

  lemma {:induction false} FreshWorker(taken: set<nat>) returns (p: nat)
    ensures p !in taken && forall q :: q in taken ==> q < p
    decreases |taken|
  {
    if taken == {} {
      p := 0;
    } else {
      var q :| q in taken;
      p := FreshWorker(taken - {q});
      assert forall x :: x in taken ==> x == q || x in taken - {q};
      if p <= q {
        p := q + 1;
      }
    }
  }

  /** The relays end, and one of them drains the outbox. */
  lemma Quiesce<S(!new), V(!new)>(cfg: Config<S, V>, s: System<S, V>) returns (run: seq<Step>, s': System<S, V>)
    requires BaseInv(cfg, s.world) && cfg.batchSize > 0
    ensures After(cfg, s, run) == Some(s') && OutboxDrained(s'.world)
    ensures s'.workers == s.workers && s'.writers == s.writers
    ensures s'.world == s.world.(locks := map[], outbox := s'.world.outbox, messages := s'.world.messages)
  {
    var rs := s.relays.Keys + s.world.locks.Values;
    var first := Release(cfg, s, rs);
    var s0 := s.(world := s.world.(locks := map[]), relays := map[]);
    var second, flat;
    second, s', flat := DrainRun(cfg, s0, 0);
    AfterConcat(cfg, s, first, s0, second, s');
    DrainedMeansPublished(s'.world.outbox);
    run := first + second;
  }

  /** From every reachable state, with commands, relays and workers interrupted
      anywhere, there is a run without any new event after which the outbox is
      published, and of every live stream all messages are acknowledged and the view
      is the fold of the whole stream.  It needs only that the subscriber listens to
      the aggregate type, whichever way its handler writes. */
  lemma AlwaysCatchesUp<S(!new), V(!new)>(cfg: Config<S, V>, s: System<S, V>, sub: SubId)
      returns (run: seq<Step>, s': System<S, V>)
    requires Reachable(cfg, s) && sub in cfg.subs && cfg.batchSize > 0
    requires cfg.subs[sub].topic == cfg.spec.aggType != ""
    ensures After(cfg, s, run) == Some(s') && s'.world.events == s.world.events
    ensures OutboxDrained(s'.world)
    ensures forall a :: Live(cfg, s.world, sub, a) ==> UpToDate(cfg, s'.world, sub, a)
    ensures forall a :: Followed(cfg, s.world, sub, a) ==> UpToDate(cfg, s'.world, sub, a)
  {
    ReachableInv(cfg, s);
    var first, mid := Quiesce(cfg, s);
    ReachableAfter(cfg, s, first, mid);
    ReachableInv(cfg, mid);
    AllOnTopic(cfg, mid, sub);
    var p := FreshWorker(mid.workers.Keys);
    var second;
    second, s' := DeliverAll(cfg, mid, p, sub);
    run := first + second;
    AfterConcat(cfg, s, first, mid, second, s');
    forall a | Live(cfg, s.world, sub, a)
      ensures UpToDate(cfg, s'.world, sub, a)
    {
      SameIsLive(cfg, s.world, mid.world, sub, a);
    }
    forall a | Followed(cfg, s.world, sub, a)
      ensures Live(cfg, s.world, sub, a)
    {
      FollowedIsLive(cfg, s.world, sub, a);
    }
  }
}
