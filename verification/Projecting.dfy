/** Commits of the read side: handler and mark in one transaction, and why a
    transaction begun on an outdated version read can do no harm. */
module Projecting {
  import opened Events
  import opened World

  /** The handler's row together with the mark (cqrs/projection.go:132-142). */
  function HandleWrites<V>(sub: SubId, e: Event, row: Option<Row<V>>): Writes<V> {
    NoWrites().(marks := {(e.id, sub)}, view := Some(ViewWrite(sub, e, row)))
  }

  /** The mark alone: of an old event (cqrs/projection.go:116-118), or of one whose
      handler wrote elsewhere or not at all. */
  function MarkWrites<V>(sub: SubId, e: Event): Writes<V> {
    NoWrites().(marks := {(e.id, sub)})
  }

  /** A handler that writes through the pool, on the row it finds there. */
  function PooledWrite<S(!new), V(!new)>(cfg: Config<S, V>, d: World<V>, sub: SubId, e: Event): World<V>
    requires sub in cfg.subs
  {
    d.(views := PutView(d.views, ViewWrite(sub, e, cfg.subs[sub].handle(ViewRow(d, sub, e.aggId), e))))
  }

  ghost predicate Processed<V>(d: World<V>, sub: SubId, e: Event) {
    (e.id, sub) in d.processed
  }

  /** The view of `e`, if it is followed, was read at version e.version - 1 or later. */
  ghost predicate Due<S(!new), V(!new)>(cfg: Config<S, V>, d: World<V>, sub: SubId, e: Event) {
    && sub in cfg.subs && e in d.events
    && (Followed(cfg, d, sub, e.aggId) ==> e.version - 1 <= ViewVersion(d, sub, e.aggId))
  }

  /** A handler run on a Due event produced `row`.  Nothing is claimed about the
      row once the event has been processed by somebody else. */
  ghost predicate RowReady<S(!new), V(!new)>(
      cfg: Config<S, V>, d: World<V>, sub: SubId, e: Event, row: Option<Row<V>>) {
    && Due(cfg, d, sub, e)
    && (Followed(cfg, d, sub, e.aggId) ==>
      && 0 < e.version <= |Stream(d.events, e.aggId)|
      && (!Processed(d, sub, e) ==> row == ViewFold(cfg.subs[sub], Stream(d.events, e.aggId)[..e.version])))
  }

  lemma DueStable<S(!new), V(!new)>(cfg: Config<S, V>, d: World<V>, d': World<V>, sub: SubId, e: Event)
    requires Due(cfg, d, sub, e) && Grows(cfg, d, d')
    ensures Due(cfg, d', sub, e)
  {
    if Followed(cfg, d', sub, e.aggId) {
      FollowedBefore(cfg, d, d', sub, e.aggId);
      assert ViewVersion(d, sub, e.aggId) <= ViewVersion(d', sub, e.aggId);
    }
  }

  lemma RowReadyStable<S(!new), V(!new)>(
      cfg: Config<S, V>, d: World<V>, d': World<V>, sub: SubId, e: Event, row: Option<Row<V>>)
    requires RowReady(cfg, d, sub, e, row) && Grows(cfg, d, d')
    ensures RowReady(cfg, d', sub, e, row)
  {
    DueStable(cfg, d, d', sub, e);
    if Followed(cfg, d', sub, e.aggId) {
      FollowedBefore(cfg, d, d', sub, e.aggId);
      StreamPrefix(d.events, d'.events, e.aggId);
      assert Stream(d'.events, e.aggId)[..e.version] == Stream(d.events, e.aggId)[..e.version];
    }
  }

  /** A stale read is harmless: as long as a Due event is unprocessed, the view
      is exactly one version behind it, whatever happened since the read. */
  lemma UnprocessedMeansNext<S(!new), V(!new)>(cfg: Config<S, V>, d: World<V>, sub: SubId, e: Event)
    requires Inv(cfg, d) && Followed(cfg, d, sub, e.aggId) && Due(cfg, d, sub, e) && !Processed(d, sub, e)
    ensures ViewVersion(d, sub, e.aggId) == e.version - 1
  {
    assert ViewOk(cfg, d, sub, e.aggId);
  }

  lemma FoldStep<V(!new)>(s: Subscription<V>, es: seq<Event>, k: nat)
    requires k < |es|
    ensures ViewFold(s, es[..k + 1]) == s.handle(ViewFold(s, es[..k]), es[k])
  {
    assert es[..k + 1][..k] == es[..k];
  }

  /** Running the handler on whatever row is there yields a usable row. */
  lemma HandlerMakesRowReady<S(!new), V(!new)>(cfg: Config<S, V>, d: World<V>, sub: SubId, e: Event)
    requires Inv(cfg, d) && Due(cfg, d, sub, e)
    ensures RowReady(cfg, d, sub, e, cfg.subs[sub].handle(ViewRow(d, sub, e.aggId), e))
  {
    if Followed(cfg, d, sub, e.aggId) {
      RowAtVersion(d.events, e);
      if !Processed(d, sub, e) {
        UnprocessedMeansNext(cfg, d, sub, e);
        assert ViewOk(cfg, d, sub, e.aggId);
        FoldStep(cfg.subs[sub], Stream(d.events, e.aggId), e.version - 1);
      }
    }
  }

  /** A transaction that only marks an old event always finds the mark there,
      so it never adds one (cqrs/projection.go:110-118). */
  lemma OldEventIsProcessed<S(!new), V(!new)>(cfg: Config<S, V>, d: World<V>, sub: SubId, e: Event)
    requires Inv(cfg, d) && Followed(cfg, d, sub, e.aggId)
    requires e in d.events && e.version <= ViewVersion(d, sub, e.aggId)
    ensures Processed(d, sub, e) && !Admits(d, MarkWrites(sub, e))
  {
    assert ViewOk(cfg, d, sub, e.aggId);
    var w: Writes<V> := MarkWrites(sub, e);
    assert (e.id, sub) in w.marks;
  }

  lemma MarkAdmitsNone<S(!new), V(!new)>(cfg: Config<S, V>, d: World<V>, w: Writes<V>, sub: SubId, e: Event)
    requires BaseInv(cfg, d) && w.events == [] && w.outbox == [] && w.marks == {(e.id, sub)}
    ensures Admits(d, w) <==> !Processed(d, sub, e)
  {
    assert d.events + [] == d.events;
    assert OutboxEvents(d.outbox) + [] == OutboxEvents(d.outbox);
    if Processed(d, sub, e) {
      assert (e.id, sub) in w.marks * d.processed;
    }
  }

  lemma EmptyOutboxPart(rows: seq<OutboxRow>)
    ensures Publish(rows + NewRows([]), {}) == rows
  {
  }

  /** What committing a mark or a handler run changes, whoever does it. */
  lemma ProjectionMerge<V>(d: World<V>, w: Writes<V>, sub: SubId, e: Event, row: Option<Row<V>>)
    requires w == MarkWrites(sub, e) || w == HandleWrites(sub, e, row)
    ensures var d' := Merge(d, w);
      d' == d.(processed := d.processed + {(e.id, sub)}, views := d'.views, applied := d'.applied)
    ensures forall s, a: AggId :: (s, a) != (sub, e.aggId) ==> ViewRow(Merge(d, w), s, a) == ViewRow(d, s, a)
    ensures w == MarkWrites(sub, e) ==> Merge(d, w).views == d.views && Merge(d, w).applied == d.applied
    ensures w == HandleWrites(sub, e, row) ==>
      ViewRow(Merge(d, w), sub, e.aggId) == row && Merge(d, w).applied == d.applied + [Application(sub, e)]
  {
    EmptyOutboxPart(d.outbox);
    assert d.events + [] == d.events;
  }

  lemma AppliedAppend(history: seq<Application>, s: SubId, e: Event, sub: SubId, a: AggId)
    ensures AppliedTo(history + [Application(s, e)], sub, a) ==
      AppliedTo(history, sub, a) + if s == sub && e.aggId == a then [e] else []
  {
    assert (history + [Application(s, e)])[..|history|] == history;
  }

  /** Other streams keep what they have: the new mark is of no event of theirs. */
  lemma OtherStreamOk<S(!new), V(!new)>(
      cfg: Config<S, V>, d: World<V>, w: Writes<V>, sub: SubId, e: Event, row: Option<Row<V>>, s: SubId, a: AggId)
    requires BaseInv(cfg, d) && e in d.events && (w == MarkWrites(sub, e) || w == HandleWrites(sub, e, row))
    requires s in cfg.subs && ViewOk(cfg, d, s, a) && (s, a) != (sub, e.aggId)
    ensures ViewOk(cfg, Merge(d, w), s, a) && ViewVersion(Merge(d, w), s, a) == ViewVersion(d, s, a)
  {
    var d' := Merge(d, w);
    ProjectionMerge(d, w, sub, e, row);
    AppliedAppend(d.applied, sub, e, s, a);
    assert ViewRow(d', s, a) == ViewRow(d, s, a);
    assert AppliedTo(d'.applied, s, a) == AppliedTo(d.applied, s, a);
    forall x | x in d'.events && x.aggId == a && (x.id, s) in d'.processed
      ensures (x.id, s) in d.processed
    {
      if s == sub && x.id == e.id {
        SameId(d.events, x, e);
      }
    }
  }

  /** The followed view of an unprocessed event moves from e.version - 1 to e.version. */
  lemma HandledStreamOk<S(!new), V(!new)>(cfg: Config<S, V>, d: World<V>, sub: SubId, e: Event, row: Option<Row<V>>)
    requires Inv(cfg, d) && Followed(cfg, d, sub, e.aggId) && RowReady(cfg, d, sub, e, row) && !Processed(d, sub, e)
    ensures var d' := Merge(d, HandleWrites(sub, e, row));
      && ViewOk(cfg, d', sub, e.aggId)
      && ViewVersion(d, sub, e.aggId) == e.version - 1 && ViewVersion(d', sub, e.aggId) == e.version
  {
    var d', a := Merge(d, HandleWrites(sub, e, row)), e.aggId;
    var es := Stream(d.events, a);
    UnprocessedMeansNext(cfg, d, sub, e);
    assert ViewOk(cfg, d, sub, a);
    ProjectionMerge(d, HandleWrites(sub, e, row), sub, e, row);
    HandledMarks(d, d', sub, e);
    assert ViewIsFold(cfg, d', sub, a);
    assert AppliedIsPrefix(d', sub, a) by {
      RowAtVersion(d.events, e);
      AppliedAppend(d.applied, sub, e, sub, a);
      assert es[..e.version] == es[..e.version - 1] + [e];
    }
  }

  /** With the view and the mark of `e` one step further, marks and view agree again. */
  lemma HandledMarks<V>(d: World<V>, d': World<V>, sub: SubId, e: Event)
    requires UniqueIds(d.events) && Contiguous(d.events) && e in d.events
    requires SeenAreProcessed(d, sub, e.aggId) && ProcessedAreSeen(d, sub, e.aggId)
    requires d'.events == d.events && d'.processed == d.processed + {(e.id, sub)}
    requires ViewVersion(d, sub, e.aggId) == e.version - 1 && ViewVersion(d', sub, e.aggId) == e.version
    ensures SeenAreProcessed(d', sub, e.aggId) && ProcessedAreSeen(d', sub, e.aggId)
  {
    forall x | x in d'.events && x.aggId == e.aggId
      ensures x.version <= e.version ==> (x.id, sub) in d'.processed
      ensures (x.id, sub) in d'.processed ==> x.version <= e.version
    {
      RowAtVersion(d.events, x);
      RowAtVersion(d.events, e);
      if x.id == e.id {
        SameId(d.events, x, e);
      }
    }
  }

  lemma ProjectionKeepsBase<S(!new), V(!new)>(
      cfg: Config<S, V>, d: World<V>, w: Writes<V>, sub: SubId, e: Event, row: Option<Row<V>>)
    requires BaseInv(cfg, d) && e in d.events && (w == MarkWrites(sub, e) || w == HandleWrites(sub, e, row))
    ensures BaseInv(cfg, Merge(d, w))
    ensures Merge(d, w).locks == d.locks && Processed(Merge(d, w), sub, e)
  {
    ProjectionMerge(d, w, sub, e, row);
    var d' := Merge(d, w);
    forall p | p in d'.processed
      ensures exists x :: x in d'.events && x.id == p.0
    {
      if p !in d.processed {
        assert e in d'.events && e.id == p.0;
      }
    }
  }

  /** Committing a handler run on an unprocessed event breaks nothing. */
  lemma HandleKeepsInv<S(!new), V(!new)>(cfg: Config<S, V>, d: World<V>, sub: SubId, e: Event, row: Option<Row<V>>)
    requires Inv(cfg, d) && RowReady(cfg, d, sub, e, row) && !Processed(d, sub, e)
    ensures var d' := Merge(d, HandleWrites(sub, e, row));
      Inv(cfg, d') && Grows(cfg, d, d') && d'.locks == d.locks && Processed(d', sub, e)
  {
    var w := HandleWrites(sub, e, row);
    var d' := Merge(d, w);
    ProjectionKeepsBase(cfg, d, w, sub, e, row);
    ProjectionMerge(d, w, sub, e, row);
    forall s, a: AggId | Followed(cfg, d', s, a)
      ensures ViewOk(cfg, d', s, a) && ViewVersion(d, s, a) <= ViewVersion(d', s, a)
    {
      assert Followed(cfg, d, s, a) && ViewOk(cfg, d, s, a);
      if (s, a) == (sub, e.aggId) {
        HandledStreamOk(cfg, d, sub, e, row);
      } else {
        OtherStreamOk(cfg, d, w, sub, e, row, s, a);
      }
    }
    if Replayable(cfg) {
      SameWriteSide(cfg, d, d');
    }
  }

  /** Committing the mark of an event breaks nothing if the view has the event. */
  lemma MarkKeepsInv<S(!new), V(!new)>(cfg: Config<S, V>, d: World<V>, sub: SubId, e: Event)
    requires Inv(cfg, d) && e in d.events
    requires Followed(cfg, d, sub, e.aggId) ==> e.version <= ViewVersion(d, sub, e.aggId)
    ensures var d' := Merge(d, MarkWrites(sub, e));
      Inv(cfg, d') && Grows(cfg, d, d') && d'.locks == d.locks && Processed(d', sub, e)
  {
    var w: Writes<V> := MarkWrites(sub, e);
    var d' := Merge(d, w);
    ProjectionKeepsBase(cfg, d, w, sub, e, None);
    ProjectionMerge(d, w, sub, e, None);
    forall s, a: AggId | Followed(cfg, d', s, a)
      ensures ViewOk(cfg, d', s, a) && ViewVersion(d, s, a) <= ViewVersion(d', s, a)
    {
      assert Followed(cfg, d, s, a) && ViewOk(cfg, d, s, a);
      if (s, a) == (sub, e.aggId) {
        MarkedStreamOk(cfg, d, sub, e);
      } else {
        OtherStreamOk(cfg, d, w, sub, e, None, s, a);
      }
    }
    if Replayable(cfg) {
      SameWriteSide(cfg, d, d');
    }
  }

  lemma MarkedStreamOk<S(!new), V(!new)>(cfg: Config<S, V>, d: World<V>, sub: SubId, e: Event)
    requires BaseInv(cfg, d) && e in d.events && sub in cfg.subs && ViewOk(cfg, d, sub, e.aggId)
    requires e.version <= ViewVersion(d, sub, e.aggId)
    ensures var d' := Merge(d, MarkWrites(sub, e));
      ViewOk(cfg, d', sub, e.aggId) && ViewVersion(d', sub, e.aggId) == ViewVersion(d, sub, e.aggId)
  {
    var d' := Merge(d, MarkWrites(sub, e));
    ProjectionMerge(d, MarkWrites(sub, e), sub, e, None);
    assert ViewRow(d', sub, e.aggId) == ViewRow(d, sub, e.aggId);
    forall x | x in d'.events && x.aggId == e.aggId && (x.id, sub) in d'.processed
      ensures x.version <= ViewVersion(d', sub, e.aggId)
    {
      if x.id == e.id {
        SameId(d.events, x, e);
      }
    }
  }

  /** Writing a view through the pool breaks nothing but what is claimed of
      transactional handlers. */
  lemma PoolKeepsInv<S(!new), V(!new)>(cfg: Config<S, V>, d: World<V>, sub: SubId, e: Event)
    requires Inv(cfg, d) && cfg.pooled && sub in cfg.subs
    ensures var d' := PooledWrite(cfg, d, sub, e);
      Inv(cfg, d') && Grows(cfg, d, d') && d'.locks == d.locks
  {
    var d' := PooledWrite(cfg, d, sub, e);
    if Replayable(cfg) {
      SameWriteSide(cfg, d, d');
    }
  }

  /** Acknowledging a processed message breaks nothing. */
  lemma AckKeepsInv<S(!new), V(!new)>(cfg: Config<S, V>, d: World<V>, sub: SubId, i: nat)
    requires Inv(cfg, d) && i < |d.messages| && Processed(d, sub, d.messages[i])
    ensures var d' := d.(acked := d.acked + {(i, sub)});
      Inv(cfg, d') && Grows(cfg, d, d') && d'.locks == d.locks
  {
    var d' := d.(acked := d.acked + {(i, sub)});
    SameReadSide(cfg, d, d');
    if Replayable(cfg) {
      SameWriteSide(cfg, d, d');
    }
  }
}
