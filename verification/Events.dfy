/** Events and event streams (eventsrc/event.go and the event_store table).

    A table is the sequence of its rows in commit order.  A stream is the
    subsequence of the rows of one aggregate; `Contiguous` says that every
    stream carries the versions 1, 2, ..., n in that order. */
module Events {
  type EventId = nat
  type AggId = nat
  type SubId = string

  /** The zero UUID, the id of an aggregate nobody has named yet. */
  const NIL_ID: AggId := 0

  datatype Option<+T> = None | Some(value: T)

  datatype Result<+T> = Ok(value: T) | Err(error: Error)

  datatype Error =
    | Nil              // no error
    | ApplyFailed      // the aggregate's Apply rejected an event
    | ValidationFailed // the state after an event is invalid
    | NoTransaction    // the context carries no open transaction
    | Concurrency      // unique_violation on the event table
    | Storage          // the database reported a failure
    | Decoding         // an unregistered event type or an unreadable snapshot
    | OutOfOrder       // the event is not the next version of the view
    | Publishing       // the broker did not confirm a publication
    | Inconsistent     // fewer rows marked than fetched

  /** The decoded payload.  The first two are the registered event types. */
  datatype Body =
    | ProductCreated(name: string, price: real)
    | ProductUpdated(name: string, price: real)
    | Unregistered(eventType: string)

  datatype Event = Event(id: EventId, aggId: AggId, aggType: string, body: Body, version: int, ts: int)

  predicate Registered(e: Event) {
    !e.body.Unregistered?
  }

  /** Rows of aggregate `a`, in commit order. */
  function Stream(rows: seq<Event>, a: AggId): seq<Event> {
    if rows == [] then []
    else
      var before := Stream(rows[..|rows| - 1], a);
      var last := rows[|rows| - 1];
      if last.aggId == a then before + [last] else before
  }

  lemma {:induction false} StreamMembers(rows: seq<Event>, a: AggId)
    ensures forall e :: e in Stream(rows, a) <==> e in rows && e.aggId == a
  {
    if rows != [] {
      StreamMembers(rows[..|rows| - 1], a);
      assert rows == rows[..|rows| - 1] + [rows[|rows| - 1]];
    }
  }

  ghost predicate Contiguous(rows: seq<Event>) {
    forall a, k :: 0 <= k < |Stream(rows, a)| ==> Stream(rows, a)[k].version == k + 1
  }

  /** The PRIMARY KEY (event_id). */
  predicate UniqueIds(rows: seq<Event>) {
    forall i, j :: 0 <= i < j < |rows| ==> rows[i].id != rows[j].id
  }

  /** The constraint UNIQUE (aggregate_id, version). */
  predicate UniqueVersions(rows: seq<Event>) {
    forall i, j :: 0 <= i < j < |rows| ==> !(rows[i].aggId == rows[j].aggId && rows[i].version == rows[j].version)
  }

  /** Successive events of aggregate `a` that continue a stream of length `n`. */
  ghost predicate Chain(es: seq<Event>, a: AggId, n: int) {
    forall j :: 0 <= j < |es| ==> es[j].aggId == a && es[j].version == n + 1 + j
  }

  lemma SameId(rows: seq<Event>, x: Event, y: Event)
    requires UniqueIds(rows) && x in rows && y in rows && x.id == y.id
    ensures x == y
  {
    var i :| 0 <= i < |rows| && rows[i] == x;
    var j :| 0 <= j < |rows| && rows[j] == y;
  }

  lemma UniqueAppend(rows: seq<Event>, e: Event)
    requires UniqueIds(rows)
    ensures (forall x :: x in rows ==> x.id != e.id) ==> UniqueIds(rows + [e])
  {
  }

  lemma {:induction false} StreamAppend(rows: seq<Event>, more: seq<Event>, a: AggId)
    ensures Stream(rows + more, a) == Stream(rows, a) + Stream(more, a)
  {
    if more == [] {
      assert rows + more == rows;
    } else {
      var init, last := more[..|more| - 1], more[|more| - 1];
      StreamAppend(rows, init, a);
      assert (rows + more)[..|rows + more| - 1] == rows + init;
    }
  }

  lemma StreamPrefix(rows: seq<Event>, rows': seq<Event>, a: AggId)
    requires rows <= rows'
    ensures Stream(rows, a) <= Stream(rows', a)
  {
    assert rows' == rows + rows'[|rows|..];
    StreamAppend(rows, rows'[|rows|..], a);
  }

  lemma {:induction false} StreamOfOne(es: seq<Event>, a: AggId, b: AggId)
    requires forall e :: e in es ==> e.aggId == a
    ensures Stream(es, b) == if a == b then es else []
  {
    if es != [] {
      var init, last := es[..|es| - 1], es[|es| - 1];
      assert es == init + [last];
      StreamOfOne(init, a, b);
      assert last in es;
    }
  }

  /** Appending events of one aggregate extends its stream and no other. */
  lemma StreamGrows(rows: seq<Event>, es: seq<Event>, a: AggId, b: AggId)
    requires forall e :: e in es ==> e.aggId == a
    ensures Stream(rows + es, b) == Stream(rows, b) + if a == b then es else []
  {
    StreamAppend(rows, es, b);
    StreamOfOne(es, a, b);
  }

  /** In a contiguous table the (aggregate, version) pair locates a row. */
  lemma RowAtVersion(rows: seq<Event>, e: Event)
    requires Contiguous(rows) && e in rows
    ensures 1 <= e.version <= |Stream(rows, e.aggId)|
    ensures Stream(rows, e.aggId)[e.version - 1] == e
  {
    StreamMembers(rows, e.aggId);
    var k :| 0 <= k < |Stream(rows, e.aggId)| && Stream(rows, e.aggId)[k] == e;
  }

  /** Rows of `a` after version `from`, ORDER BY version ASC. */
  function RowsAfter(rows: seq<Event>, a: AggId, from: int): (es: seq<Event>)
    ensures forall i, j :: 0 <= i < j < |es| ==> es[i].version <= es[j].version
    ensures forall e :: e in es <==> e in rows && e.aggId == a && e.version > from
  {
    if rows == [] then []
    else
      var before := RowsAfter(rows[..|rows| - 1], a, from);
      var last := rows[|rows| - 1];
      assert rows == rows[..|rows| - 1] + [last];
      if last.aggId == a && last.version > from then InsertByVersion(before, last) else before
  }

  function InsertByVersion(es: seq<Event>, e: Event): (r: seq<Event>)
    requires forall i, j :: 0 <= i < j < |es| ==> es[i].version <= es[j].version
    ensures forall i, j :: 0 <= i < j < |r| ==> r[i].version <= r[j].version
    ensures forall x :: x in r <==> x in es || x == e
    ensures (forall x :: x in es ==> x.version <= e.version) ==> r == es + [e]
  {
    if es == [] then [e]
    else
      var init, last := es[..|es| - 1], es[|es| - 1];
      assert es == init + [last];
      if last.version <= e.version then es + [e]
      else
        assert last in es;
        assert forall i, j :: 0 <= i < j < |init| ==> init[i] == es[i] && init[j] == es[j];
        assert forall x :: x in init ==> x.version <= last.version;
        InsertByVersion(init, e) + [last]
  }

  lemma ContiguousInit(rows: seq<Event>)
    requires Contiguous(rows) && rows != []
    ensures Contiguous(rows[..|rows| - 1])
  {
    var init := rows[..|rows| - 1];
    forall a, k | 0 <= k < |Stream(init, a)|
      ensures Stream(init, a)[k].version == k + 1
    {
      StreamPrefix(init, rows, a);
      assert Stream(init, a)[k] == Stream(rows, a)[k];
    }
  }

  lemma SuffixAppend(es: seq<Event>, e: Event, from: nat)
    ensures from <= |es| ==> (es + [e])[from..] == es[from..] + [e]
    ensures from == |es| + 1 ==> (es + [e])[from..] == []
  {
  }

  lemma AllUpTo(rows: seq<Event>, a: AggId, from: int)
    requires Contiguous(rows)
    ensures forall x :: x in RowsAfter(rows, a, from) ==> x.version <= |Stream(rows, a)|
  {
    forall x | x in RowsAfter(rows, a, from)
      ensures x.version <= |Stream(rows, a)|
    {
      RowAtVersion(rows, x);
    }
  }

  /** The tail query returns exactly the part of the stream after `from`. */
  lemma {:induction false} RowsAfterIsSuffix(rows: seq<Event>, a: AggId, from: nat)
    requires Contiguous(rows)
    ensures RowsAfter(rows, a, from) == if from <= |Stream(rows, a)| then Stream(rows, a)[from..] else []
  {
    if rows != [] {
      var init, last := rows[..|rows| - 1], rows[|rows| - 1];
      ContiguousInit(rows);
      RowsAfterIsSuffix(init, a, from);
      if last.aggId == a {
        assert last.version == |Stream(init, a)| + 1 by {
          assert Stream(rows, a)[|Stream(init, a)|] == last;
        }
        AllUpTo(init, a, from);
        SuffixAppend(Stream(init, a), last, from);
      }
    }
  }

  lemma VersionTaken(rows: seq<Event>, a: AggId, n: nat)
    requires Contiguous(rows) && n < |Stream(rows, a)|
    ensures exists i :: 0 <= i < |rows| && rows[i].aggId == a && rows[i].version == n + 1
  {
    StreamMembers(rows, a);
    assert Stream(rows, a)[n] in rows;
  }

  /** Optimistic concurrency: a chain that the unique constraint accepts starts
      exactly where the stream ends, and then the stream grows by the chain. */
  lemma ChainExtendsStream(rows: seq<Event>, es: seq<Event>, a: AggId, n: int)
    requires Contiguous(rows) && Chain(es, a, n) && es != [] && 0 <= n <= |Stream(rows, a)|
    requires UniqueVersions(rows + es)
    ensures n == |Stream(rows, a)|
    ensures forall b :: Stream(rows + es, b) == Stream(rows, b) + if a == b then es else []
    ensures Contiguous(rows + es)
  {
    if n < |Stream(rows, a)| {
      VersionTaken(rows, a, n);
    }
    forall i | 0 <= i < |rows|
      ensures !(rows[i].aggId == a && rows[i].version == n + 1)
    {
      var all := rows + es;
      assert all[i] == rows[i] && all[|rows|] == es[0];
    }
    forall b
      ensures Stream(rows + es, b) == Stream(rows, b) + if a == b then es else []
    {
      StreamGrows(rows, es, a, b);
    }
  }
}
