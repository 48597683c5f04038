/** A single relay drains the outbox (infra/postgres/outbox.go:25-78, outbox/relay.go:58-110):
    the number of polls it takes, and the order in which it publishes. */
module Draining {
  import opened Events
  import opened World
  import opened Relaying

  /** Successive undisturbed polls of one relay, ties in `ts` broken anyhow. */
  ghost predicate Polls<V>(b: nat, me: Session, ds: seq<World<V>>, batches: seq<seq<Event>>) {
    && |ds| == |batches| + 1
    && forall i :: 0 <= i < |batches| ==> IsBatch(ds[i], b, batches[i]) && ds[i + 1] == Poll(ds[i], me, batches[i])
  }

  function Flatten(batches: seq<seq<Event>>): seq<Event> {
    if batches == [] then [] else batches[0] + Flatten(batches[1..])
  }

  function WithTopic(es: seq<Event>): seq<Event> {
    if es == [] then [] else (if es[0].aggType == "" then [] else [es[0]]) + WithTopic(es[1..])
  }

  function Minus(m: int, n: int): int {
    if m < n then 0 else m - n
  }

  lemma {:induction false} SendAllAppends<V>(d: World<V>, batch: seq<Event>)
    ensures SendAll(d, batch) == d.(messages := d.messages + WithTopic(batch))
    decreases |batch|
  {
    if batch == [] {
      assert d.messages + [] == d.messages;
    } else {
      var e, rest := batch[0], batch[1..];
      SendAllAppends(Send(d, e), rest);
      if e.aggType == "" {
        assert WithTopic(batch) == WithTopic(rest);
      } else {
        assert WithTopic(batch) == [e] + WithTopic(rest);
        assert (d.messages + [e]) + WithTopic(rest) == d.messages + ([e] + WithTopic(rest));
      }
    }
  }

  lemma {:induction false} WithTopicConcat(es: seq<Event>, more: seq<Event>)
    ensures WithTopic(es + more) == WithTopic(es) + WithTopic(more)
  {
    if es == [] {
      assert es + more == more;
    } else {
      assert (es + more)[1..] == es[1..] + more;
      WithTopicConcat(es[1..], more);
    }
  }

  /** What a poll changes: it marks its batch and sends the events with a topic. */
  lemma PollEffect<V>(d: World<V>, me: Session, batch: seq<Event>)
    requires d.locks == map[]
    ensures var d' := Poll(d, me, batch);
      && d' == d.(outbox := d'.outbox, messages := d.messages + WithTopic(batch))
      && |d'.outbox| == |d.outbox|
      && forall i :: 0 <= i < |d.outbox| ==>
        d'.outbox[i] == OutboxRow(d.outbox[i].evt, d.outbox[i].published || d.outbox[i].evt.id in IdsOf(batch))
  {
    SendAllAppends(Lock(d, me, batch), batch);
    assert d.events + [] == d.events;
    assert d.outbox + NewRows([]) == d.outbox;
  }

  lemma PollPending<V>(d: World<V>, me: Session, b: nat, batch: seq<Event>)
    requires d.locks == map[] && UniqueIds(OutboxEvents(d.outbox)) && IsBatch(d, b, batch)
    ensures var d' := Poll(d, me, batch);
      && Pending(d'.outbox) == Pending(d.outbox) - Elements(batch)
      && OutboxEvents(d'.outbox) == OutboxEvents(d.outbox) && d'.locks == map[]
  {
    var d' := Poll(d, me, batch);
    PollEffect(d, me, batch);
    forall e | e in Pending(d'.outbox)
      ensures e in Pending(d.outbox) && e !in batch
    {
      var i :| 0 <= i < |d'.outbox| && d'.outbox[i] == OutboxRow(e, false);
      assert d.outbox[i] == OutboxRow(e, false);
      assert e.id !in IdsOf(batch);
    }
    forall e | e in Pending(d.outbox) && e !in batch
      ensures e in Pending(d'.outbox)
    {
      var i :| 0 <= i < |d.outbox| && d.outbox[i] == OutboxRow(e, false);
      if e.id in IdsOf(batch) {
        var x :| x in batch && x.id == e.id;
        assert Free(d, x);
        PendingAreOutboxEvents(d.outbox, x);
        PendingAreOutboxEvents(d.outbox, e);
        SameId(OutboxEvents(d.outbox), x, e);
      }
      assert d'.outbox[i] == OutboxRow(e, false);
    }
  }

  /** A poll takes min(b, pending) events, none newer than those it leaves. */
  lemma PollCount<V>(d: World<V>, me: Session, b: nat, batch: seq<Event>)
    requires d.locks == map[] && UniqueIds(OutboxEvents(d.outbox)) && IsBatch(d, b, batch)
    ensures var d' := Poll(d, me, batch);
      && |Pending(d'.outbox)| == Minus(|Pending(d.outbox)|, b)
      && |batch| == |Pending(d.outbox)| - |Pending(d'.outbox)|
      && (forall e :: e in batch ==> e in Pending(d.outbox))
      && (forall x, y :: x in batch && y in Pending(d'.outbox) ==> x.ts <= y.ts)
  {
    var taken := Elements(batch);
    PollPending(d, me, b, batch);
    DistinctElements(batch);
    forall e | e in batch
      ensures e in Pending(d.outbox)
    {
      assert Free(d, e);
    }
    forall e | e in Pending(d.outbox) - taken
      ensures Free(d, e) && |batch| == b
    {
      assert Free(d, e);
    }
    assert taken <= Pending(d.outbox);
    if Pending(d.outbox) - taken == {} {
      assert Pending(d.outbox) == taken;
    } else {
      var e :| e in Pending(d.outbox) - taken;
    }
  }

  /** `flat` was published between two states with pending sets p and p'. */
  ghost predicate Drained(p: set<Event>, p': set<Event>, flat: seq<Event>) {
    && p' <= p
    && |flat| == |p| - |p'|
    && (forall e :: e in flat <==> e in p && e !in p')
    && SortedByTime(flat)
    && (forall x, y :: x in flat && y in p' ==> x.ts <= y.ts)
  }

  lemma DrainedConcat(p: set<Event>, p': set<Event>, p'': set<Event>, es: seq<Event>, more: seq<Event>)
    requires Drained(p, p', es) && Drained(p', p'', more)
    ensures Drained(p, p'', es + more)
  {
    assert forall y :: y in more ==> y in p';
    assert forall y :: y in p'' ==> y in p';
  }

  /** Draining: after k polls of batch size b exactly max(0, m - k*b) of m
      pending rows are left, so ceil(m/b) polls empty the outbox and fewer do
      not; the publications together are a permutation of the rows no longer
      pending, sorted by timestamp, and reach the broker in that order. */
  lemma {:induction false} Drain<V(!new)>(b: nat, me: Session, ds: seq<World<V>>, batches: seq<seq<Event>>)
    requires Polls(b, me, ds, batches)
    requires ds[0].locks == map[] && UniqueIds(OutboxEvents(ds[0].outbox))
    ensures var first, last, flat := ds[0], ds[|batches|], Flatten(batches);
      && |Pending(last.outbox)| == Minus(|Pending(first.outbox)|, |batches| * b)
      && (Pending(last.outbox) == {} <==> |Pending(first.outbox)| <= |batches| * b)
      && Drained(Pending(first.outbox), Pending(last.outbox), flat)
      && last.messages == first.messages + WithTopic(flat)
      && OutboxEvents(last.outbox) == OutboxEvents(first.outbox)
    decreases |batches|
  {
    if batches == [] {
      assert ds[0].messages + [] == ds[0].messages;
    } else {
      var tail, rest := ds[1..], batches[1..];
      PollsRest(b, me, ds, batches);
      Drain(b, me, tail, rest);
      assert tail[|rest|] == ds[|batches|];
      DrainMore(b, |batches|, ds[0], tail[0], tail[|rest|], batches[0], Flatten(rest));
      EmptyIffCovered(Pending(ds[0].outbox), Pending(ds[|batches|].outbox), |batches| * b);
    }
  }

  lemma DrainMore<V>(
      b: nat, k: nat, first: World<V>, next: World<V>, last: World<V>, batch: seq<Event>, flat: seq<Event>)
    requires k > 0 && Drained(Pending(first.outbox), Pending(next.outbox), batch)
    requires Drained(Pending(next.outbox), Pending(last.outbox), flat)
    requires |Pending(next.outbox)| == Minus(|Pending(first.outbox)|, b)
    requires |Pending(last.outbox)| == Minus(|Pending(next.outbox)|, (k - 1) * b)
    requires next.messages == first.messages + WithTopic(batch) && last.messages == next.messages + WithTopic(flat)
    ensures |Pending(last.outbox)| == Minus(|Pending(first.outbox)|, k * b)
    ensures Drained(Pending(first.outbox), Pending(last.outbox), batch + flat)
    ensures last.messages == first.messages + WithTopic(batch + flat)
  {
    WithTopicConcat(batch, flat);
    DrainedConcat(Pending(first.outbox), Pending(next.outbox), Pending(last.outbox), batch, flat);
    Remaining(|Pending(first.outbox)|, b, k);
  }

  lemma EmptyIffCovered(p: set<Event>, p': set<Event>, n: nat)
    requires |p'| == Minus(|p|, n)
    ensures p' == {} <==> |p| <= n
  {
  }

  lemma Remaining(m: nat, b: nat, k: nat)
    requires k > 0
    ensures Minus(Minus(m, b), (k - 1) * b) == Minus(m, k * b)
  {
    assert k * b == b + (k - 1) * b;
  }

  lemma PollsRest<V>(b: nat, me: Session, ds: seq<World<V>>, batches: seq<seq<Event>>)
    requires Polls(b, me, ds, batches) && batches != []
    requires ds[0].locks == map[] && UniqueIds(OutboxEvents(ds[0].outbox))
    ensures Polls(b, me, ds[1..], batches[1..])
    ensures |Pending(ds[1].outbox)| == Minus(|Pending(ds[0].outbox)|, b)
    ensures Drained(Pending(ds[0].outbox), Pending(ds[1].outbox), batches[0])
    ensures ds[1].messages == ds[0].messages + WithTopic(batches[0])
    ensures OutboxEvents(ds[1].outbox) == OutboxEvents(ds[0].outbox) && ds[1].locks == map[]
  {
    assert IsBatch(ds[0], b, batches[0]) && ds[0 + 1] == Poll(ds[0], me, batches[0]);
    DrainOne(b, me, ds[0], batches[0]);
    forall i | 0 <= i < |batches[1..]|
      ensures IsBatch(ds[1..][i], b, batches[1..][i]) && ds[1..][i + 1] == Poll(ds[1..][i], me, batches[1..][i])
    {
      assert IsBatch(ds[i + 1], b, batches[i + 1]) && ds[i + 1 + 1] == Poll(ds[i + 1], me, batches[i + 1]);
    }
  }

  lemma DrainOne<V>(b: nat, me: Session, d: World<V>, batch: seq<Event>)
    requires d.locks == map[] && UniqueIds(OutboxEvents(d.outbox)) && IsBatch(d, b, batch)
    ensures var d' := Poll(d, me, batch);
      && |Pending(d'.outbox)| == Minus(|Pending(d.outbox)|, b)
      && Drained(Pending(d.outbox), Pending(d'.outbox), batch)
      && d'.messages == d.messages + WithTopic(batch)
      && OutboxEvents(d'.outbox) == OutboxEvents(d.outbox) && d'.locks == map[]
  {
    PollPending(d, me, b, batch);
    PollCount(d, me, b, batch);
    PollEffect(d, me, batch);
  }
}
