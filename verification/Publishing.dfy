/** Runs without relay failures: every event is sent exactly once, however many
    relays there are (outbox/relay_test.go:92-140). */
module Publishing {
  import opened Events
  import opened World
  import opened Relaying
  import opened Machine

  ghost predicate NoRelayFails(run: seq<Step>) {
    forall step :: step in run ==> !(step.ByRelay? && step.move.RollbackRelay?)
  }

  ghost predicate SentBy(task: RelayTask, e: Event) {
    task.done <= |task.batch| && e in task.batch[..task.done]
  }

  /** Marked published, or sent by a relay that has not committed yet. */
  ghost predicate Sent<S, V>(s: System<S, V>, e: Event) {
    OutboxRow(e, true) in s.world.outbox || exists r :: r in s.relays && SentBy(s.relays[r], e)
  }

  ghost predicate SentOnce<S, V>(s: System<S, V>) {
    forall e :: e in s.world.events && e.aggType != "" ==> SentCount(s, e)
  }

  ghost predicate SentCount<S, V>(s: System<S, V>, e: Event) {
    multiset(s.world.messages)[e] == if Sent(s, e) then 1 else 0
  }

  lemma UnknownUnpublished(events: seq<Event>, outbox: seq<OutboxRow>, e: Event)
    requires DualWrite(events, outbox) && e !in events
    ensures OutboxRow(e, true) !in outbox
  {
    forall i | 0 <= i < |outbox|
      ensures outbox[i] != OutboxRow(e, true)
    {
      assert events[i] == outbox[i].evt;
    }
  }

  /** The next event of a relay has not been sent by anybody. */
  lemma NextNotSent<S(!new), V(!new)>(cfg: Config<S, V>, s: System<S, V>, r: Session)
    requires SystemInv(cfg, s) && r in s.relays && s.relays[r].done < |s.relays[r].batch|
    ensures !Sent(s, s.relays[r].batch[s.relays[r].done])
  {
    var RelayTask(batch, done) := s.relays[r];
    var e := batch[done];
    assert RelayOk(s.world, r, s.relays[r]);
    HeldUnpublished(cfg, s.world, r, batch, done, e);
    forall x | x in s.relays
      ensures !SentBy(s.relays[x], e)
    {
      if x != r {
        assert RelayOk(s.world, x, s.relays[x]);
        BatchesDisjoint(s.world, r, batch, x, s.relays[x].batch, done, s.relays[x].done);
        assert e.id in IdsOf(batch);
      }
    }
  }

  lemma SendKeepsOnce<S(!new), V(!new)>(cfg: Config<S, V>, s: System<S, V>, r: Session, s': System<S, V>)
    requires SystemInv(cfg, s) && SentOnce(s) && TakeRelay(cfg, s, r, PublishNext) == Some(s')
    ensures SentOnce(s')
  {
    var RelayTask(batch, done) := s.relays[r];
    var e := batch[done];
    NextNotSent(cfg, s, r);
    forall x | x in s'.world.events && x.aggType != ""
      ensures SentCount(s', x)
    {
      assert SentCount(s, x);
      OneMoreSent(s, r, s', x);
    }
  }

  lemma OneMoreSent<S, V>(s: System<S, V>, r: Session, s': System<S, V>, x: Event)
    requires r in s.relays && s.relays[r].done < |s.relays[r].batch|
    requires s'.world.outbox == s.world.outbox
    requires s'.relays == s.relays[r := RelayTask(s.relays[r].batch, s.relays[r].done + 1)]
    ensures Sent(s', x) <==> Sent(s, x) || x == s.relays[r].batch[s.relays[r].done]
  {
    var RelayTask(batch, done) := s.relays[r];
    assert batch[..done + 1] == batch[..done] + [batch[done]];
    if x == batch[done] {
      assert SentBy(s'.relays[r], x);
    }
    if q :| q in s.relays && SentBy(s.relays[q], x) {
      assert SentBy(s'.relays[q], x);
    }
    if q :| q in s'.relays && SentBy(s'.relays[q], x) {
      assert q == r || SentBy(s.relays[q], x);
    }
  }

  lemma CommitKeepsOnce<S(!new), V(!new)>(cfg: Config<S, V>, s: System<S, V>, r: Session, s': System<S, V>)
    requires SystemInv(cfg, s) && SentOnce(s) && TakeRelay(cfg, s, r, CommitRelay) == Some(s')
    ensures SentOnce(s')
  {
    var RelayTask(batch, done) := s.relays[r];
    var d, d' := s.world, s'.world;
    assert RelayOk(d, r, s.relays[r]);
    CommitBatchEffect(cfg, d, r, batch);
    assert batch[..done] == batch;
    forall e | e in d'.events && e.aggType != ""
      ensures SentCount(s', e)
    {
      assert SentCount(s, e);
      var i :| 0 <= i < |d.events| && d.events[i] == e;
      assert OutboxEvents(d.outbox)[i] == e;
      if e in batch {
        assert e.id in IdsOf(batch);
        assert d'.outbox[i] == OutboxRow(e, true);
        assert SentBy(s.relays[r], e);
      } else {
        OthersUnpublished(cfg, d, r, batch, e);
        if q :| q in s.relays && SentBy(s.relays[q], e) {
          assert q in s'.relays && SentBy(s'.relays[q], e);
        }
      }
    }
  }

  lemma OthersUnpublished<S(!new), V(!new)>(cfg: Config<S, V>, d: World<V>, r: Session, batch: seq<Event>, e: Event)
    requires Inv(cfg, d) && Holding(d, r, batch, |batch|) && e in d.events && e !in batch
    ensures OutboxRow(e, true) in d.outbox <==> OutboxRow(e, true) in CommitBatch(d, r, batch).outbox
  {
    var d' := CommitBatch(d, r, batch);
    CommitBatchEffect(cfg, d, r, batch);
    if e.id in IdsOf(batch) {
      var x :| x in batch && x.id == e.id;
      assert x in OutboxEvents(d.outbox);
      SameId(d.events, x, e);
      assert false;
    }
    forall i | 0 <= i < |d.outbox| && d.outbox[i].evt == e
      ensures d'.outbox[i] == d.outbox[i]
    {
    }
    if OutboxRow(e, true) in d.outbox {
      var i :| 0 <= i < |d.outbox| && d.outbox[i] == OutboxRow(e, true);
      assert d'.outbox[i] == OutboxRow(e, true);
    }
  }

  lemma SaveKeepsOnce<S(!new), V(!new)>(
      cfg: Config<S, V>, s: System<S, V>, w: nat, withSnapshot: bool, s': System<S, V>)
    requires SystemInv(cfg, s) && SentOnce(s) && TakeWriter(cfg, s, w, CommitSave(withSnapshot)) == Some(s')
    ensures SentOnce(s')
  {
    var es := s.writers[w].es;
    var d, d' := s.world, s'.world;
    forall e | e in d'.events && e.aggType != ""
      ensures SentCount(s', e)
    {
      forall i | 0 <= i < |d.outbox|
        ensures d'.outbox[i] == d.outbox[i]
      {
      }
      if e in d.events {
        assert SentCount(s, e);
        NewRowsUnpublished(d, es, e);
      } else {
        NewRowsUnpublished(d, es, e);
        UnknownUnpublished(d.events, d.outbox, e);
        forall r | r in s.relays
          ensures !SentBy(s.relays[r], e)
        {
          assert RelayOk(d, r, s.relays[r]);
        }
      }
    }
  }

  lemma NewRowsUnpublished<V>(d: World<V>, es: seq<Event>, e: Event)
    ensures OutboxRow(e, true) in Publish(d.outbox + NewRows(es), {}) <==> OutboxRow(e, true) in d.outbox
  {
    var rows := d.outbox + NewRows(es);
    assert Publish(rows, {}) == rows;
  }

  lemma FetchKeepsOnce<S(!new), V(!new)>(
      cfg: Config<S, V>, s: System<S, V>, r: Session, batch: seq<Event>, s': System<S, V>)
    requires SentOnce(s) && TakeRelay(cfg, s, r, FetchBatch(batch)) == Some(s')
    ensures SentOnce(s')
  {
    forall e | e in s'.world.events && e.aggType != ""
      ensures SentCount(s', e)
    {
      assert SentCount(s, e);
      if q :| q in s.relays && SentBy(s.relays[q], e) {
        assert SentBy(s'.relays[q], e);
      }
      assert !SentBy(RelayTask(batch, 0), e);
    }
  }

  lemma StepKeepsOnce<S(!new), V(!new)>(cfg: Config<S, V>, s: System<S, V>, step: Step, s': System<S, V>)
    requires SystemInv(cfg, s) && SentOnce(s) && Take(cfg, s, step) == Some(s')
    requires NoRelayFails([step])
    ensures SentOnce(s')
  {
    assert step in [step];
    match step
    case ByWriter(w, action) => WriterKeepsOnce(cfg, s, w, action, s');
    case ByRelay(r, move) => RelayKeepsOnce(cfg, s, r, move, s');
    case ByWorker(p, act) =>
      WorkerKeepsWriteSide(cfg, s, p, act, s');
      SameSending(s, s');
  }

  lemma WriterKeepsOnce<S(!new), V(!new)>(
      cfg: Config<S, V>, s: System<S, V>, w: nat, action: WriterStep, s': System<S, V>)
    requires SystemInv(cfg, s) && SentOnce(s) && TakeWriter(cfg, s, w, action) == Some(s')
    ensures SentOnce(s')
  {
    if action.CommitSave? {
      SaveKeepsOnce(cfg, s, w, action.withSnapshot, s');
    } else {
      SameSending(s, s');
    }
  }

  lemma RelayKeepsOnce<S(!new), V(!new)>(
      cfg: Config<S, V>, s: System<S, V>, r: Session, move: RelayStep, s': System<S, V>)
    requires SystemInv(cfg, s) && SentOnce(s) && TakeRelay(cfg, s, r, move) == Some(s') && !move.RollbackRelay?
    ensures SentOnce(s')
  {
    match move
    case FetchBatch(batch) => FetchKeepsOnce(cfg, s, r, batch, s');
    case PublishNext => SendKeepsOnce(cfg, s, r, s');
    case CommitRelay => CommitKeepsOnce(cfg, s, r, s');
  }

  lemma SameSending<S(!new), V(!new)>(s: System<S, V>, s': System<S, V>)
    requires SentOnce(s)
    requires s'.world.events == s.world.events && s'.world.messages == s.world.messages
    requires s'.world.outbox == s.world.outbox && s'.relays == s.relays
    ensures SentOnce(s')
  {
    forall e | e in s'.world.events && e.aggType != ""
      ensures SentCount(s', e)
    {
      assert SentCount(s, e);
    }
  }

  lemma {:induction false} RunKeepsOnce<S(!new), V(!new)>(
      cfg: Config<S, V>, s: System<S, V>, run: seq<Step>, s': System<S, V>)
    requires SystemInv(cfg, s) && SentOnce(s) && NoRelayFails(run) && After(cfg, s, run) == Some(s')
    ensures SentOnce(s')
    decreases |run|
  {
    if run != [] {
      var mid := Take(cfg, s, run[0]).value;
      assert run[0] in run;
      StepKeepsInv(cfg, s, run[0], mid);
      StepKeepsOnce(cfg, s, run[0], mid);
      RunKeepsOnce(cfg, mid, run[1..], s');
    }
  }

  /** In a run in which no relay rolls back, every event with a topic has been
      sent exactly once if it was sent at all, and exactly once when it is
      marked published. */
  lemma PublishedExactlyOnce<S(!new), V(!new)>(cfg: Config<S, V>, run: seq<Step>, s: System<S, V>, e: Event)
    requires NoRelayFails(run) && After(cfg, Start<S, V>(), run) == Some(s)
    requires e.aggType != ""
    ensures multiset(s.world.messages)[e] <= 1
    ensures OutboxRow(e, true) in s.world.outbox ==> multiset(s.world.messages)[e] == 1
  {
    StartInv(cfg);
    RunKeepsInv(cfg, Start(), run, s);
    RunKeepsOnce(cfg, Start(), run, s);
    if e in s.world.events {
      assert SentCount(s, e);
    } else {
      UnknownUnpublished(s.world.events, s.world.outbox, e);
    }
  }
}
