/** The whole system as a state machine: any number of command handlers, relays
    and projection workers, each with a program counter, interleaved step by
    step over one shared world.

    All nondeterminism is in the choice of the step: who moves, which message is
    delivered (again), whether a commit takes effect and what is reported about
    it, when a process fails, gives up or crashes. */
module Machine {
  import opened Events
  import opened Aggregates
  import opened World
  import opened Saving
  import opened Projecting
  import opened Relaying
  import opened Loading

  /** A command handler: between the two load queries, or holding an aggregate
      with its uncommitted events; `known` if the stream existed at the start. */
  datatype Writer<+S> =
    | Loading(agg: AggId, known: bool, from: int, core: Core<S>)
    | Loaded(agg: AggId, known: bool, core: Core<S>, es: seq<Event>)

  /** A relay inside ProcessOutboxBatch: its batch and how much of it is sent. */
  datatype RelayTask = RelayTask(batch: seq<Event>, done: nat)

  /** Inside a transaction: `Hidden` if the handler said nil although its write through
      the pool had failed. */
  datatype Stage<+V> =
    | Begun
    | Ran(row: Option<Row<V>>)
    | Hidden
    | Marked(writes: Writes<V>, poisoned: bool)

  /** A worker inside Projection.Handle, with message `i` for subscriber `sub`. */
  datatype Worker<+V> =
    | Received(sub: SubId, i: nat)
    | Attempting(sub: SubId, i: nat)
    | InTx(sub: SubId, i: nat, version: int, stage: Stage<V>)
    | Finished(sub: SubId, i: nat, ok: bool)

  datatype System<+S, +V> = System(
    world: World<V>,
    writers: map<nat, Writer<S>>,
    relays: map<Session, RelayTask>,
    workers: map<nat, Worker<V>>)

  datatype WriterStep =
    | BeginCreate(agg: AggId)
    | QuerySnapshot(agg: AggId)
    | QueryTail
    | TrackEvent(e: Event)
    | CommitSave(withSnapshot: bool)
    | Abandon

  datatype RelayStep =
    | FetchBatch(batch: seq<Event>)
    | PublishNext
    | CommitRelay
    | RollbackRelay

  datatype WorkerStep =
    | Receive(sub: SubId, i: nat)
    | CheckProcessed
    | ReadVersion
    | RunHandler
    | HideFailure
    | MarkProcessed
    | CommitHandling(effect: bool, reported: bool)
    | RetryHandling
    | FailHandling
    | Settle
    | Crash

  datatype Step =
    | ByWriter(w: nat, action: WriterStep)
    | ByRelay(r: Session, move: RelayStep)
    | ByWorker(p: nat, act: WorkerStep)

  function Start<S, V>(): System<S, V> {
    System(InitialWorld(), map[], map[], map[])
  }

  // ----- The steps -----

  /** The snapshot of a save: none if it is not due or its marshalling failed. */
  function Snapshot<S(!new), V(!new)>(cfg: Config<S, V>, core: Core<S>, taken: bool): Option<SnapshotRow> {
    if taken then SnapshotOf(cfg.spec, cfg.frequency, core) else None
  }

  ghost function TakeWriter<S(!new), V(!new)>(
      cfg: Config<S, V>, s: System<S, V>, w: nat, step: WriterStep): Option<System<S, V>> {
    var d := s.world;
    match step
    case BeginCreate(a) =>
      if w in s.writers then None
      else Some(s.(writers := s.writers[w := Loaded(a, false, EmptyCore(cfg.spec), [])]))
    case QuerySnapshot(a) =>
      var r := FromSnapshot(cfg.spec, LatestSnapshot(d.snapshots, a));
      if w in s.writers || r.None? then None
      else Some(s.(writers := s.writers[w := Loading(a, Stream(d.events, a) != [], r.value.0, r.value.1)]))
    case QueryTail =>
      if w !in s.writers || !s.writers[w].Loading? then None
      else
        var Loading(a, known, from, core) := s.writers[w];
        var tail := RowsAfter(d.events, a, from);
        if exists e :: e in tail && !Registered(e) then None
        else Some(s.(writers := s.writers[w := Loaded(a, known, ReplayFrom(cfg.spec, core, tail).core, [])]))
    case TrackEvent(e) =>
      if w !in s.writers || !s.writers[w].Loaded? then None
      else
        var Loaded(a, known, core, es) := s.writers[w];
        var (core', err) := Track(cfg.spec, core, e);
        if cfg.allowed(known, core, e) && e.aggId == a && e.aggType == cfg.spec.aggType
          && e.version == core.version + 1 && err.Nil? then
          Some(s.(writers := s.writers[w := Loaded(a, known, core', es + [e])]))
        else None
    case CommitSave(withSnapshot) =>
      if w !in s.writers || !s.writers[w].Loaded? then None
      else
        var Loaded(a, known, core, es) := s.writers[w];
        var writes: Writes<V> := SaveWrites(es, Snapshot(cfg, core, withSnapshot));
        if es != [] && Admits(d, writes) then
          Some(s.(world := Merge(d, writes), writers := s.writers - {w}))
        else None
    case Abandon =>
      Some(s.(writers := s.writers - {w}))
  }

  ghost function TakeRelay<S(!new), V(!new)>(
      cfg: Config<S, V>, s: System<S, V>, r: Session, step: RelayStep): Option<System<S, V>> {
    var d := s.world;
    match step
    case FetchBatch(batch) =>
      if r in s.relays || batch == [] || !IsBatch(d, cfg.batchSize, batch) then None
      else Some(s.(world := Lock(d, r, batch), relays := s.relays[r := RelayTask(batch, 0)]))
    case PublishNext =>
      if r !in s.relays || s.relays[r].done >= |s.relays[r].batch| then None
      else
        var RelayTask(batch, done) := s.relays[r];
        Some(s.(world := Send(d, batch[done]), relays := s.relays[r := RelayTask(batch, done + 1)]))
    case CommitRelay =>
      if r !in s.relays || s.relays[r].done != |s.relays[r].batch| then None
      else Some(s.(world := CommitBatch(d, r, s.relays[r].batch), relays := s.relays - {r}))
    case RollbackRelay =>
      Some(s.(world := Unlock(d, r), relays := s.relays - {r}))
  }

  ghost function TakeWorker<S(!new), V(!new)>(
      cfg: Config<S, V>, s: System<S, V>, p: nat, step: WorkerStep): Option<System<S, V>> {
    var d := s.world;
    if step.Receive? then
      var Receive(sub, i) := step;
      if p !in s.workers && sub in cfg.subs && i < |d.messages|
        && d.messages[i].aggType == cfg.subs[sub].topic && (i, sub) !in d.acked then
        Some(s.(workers := s.workers[p := Received(sub, i)]))
      else None
    else if step.Crash? then Some(s.(workers := s.workers - {p}))
    else if p !in s.workers || s.workers[p].sub !in cfg.subs || s.workers[p].i >= |d.messages| then None
    else
      var r := Handling(cfg, d, s.workers[p], step);
      if r.None? then None
      else
        var (d', wk') := r.value;
        Some(s.(world := d', workers := if wk'.None? then s.workers - {p} else s.workers[p := wk'.value]))
  }

  predicate MayMark<V>(wk: Worker<V>, e: Event)
    requires wk.InTx?
  {
    wk.stage.Ran? || wk.stage.Hidden? || (wk.stage.Begun? && e.version <= wk.version)
  }

  /** What is pending in the transaction once the mark is: the handler's row only if
      the handler wrote it there. */
  function TxWrites<S(!new), V(!new)>(cfg: Config<S, V>, sub: SubId, e: Event, stage: Stage<V>): Writes<V> {
    if stage.Ran? && !cfg.pooled then HandleWrites(sub, e, stage.row) else MarkWrites(sub, e)
  }

  /** One action of Projection.Handle, or of the acknowledgement after it: the
      world and the program counter afterwards. */
  ghost function Handling<S(!new), V(!new)>(
      cfg: Config<S, V>, d: World<V>, wk: Worker<V>, step: WorkerStep): Option<(World<V>, Option<Worker<V>>)>
    requires wk.sub in cfg.subs && wk.i < |d.messages|
  {
    var sub, i, e := wk.sub, wk.i, d.messages[wk.i];
    if step.CheckProcessed? && wk.Received? then
      Some((d, Some(if Processed(d, sub, e) then Finished(sub, i, true) else Attempting(sub, i))))
    else if step.ReadVersion? && wk.Attempting? then
      var v := ViewVersion(d, sub, e.aggId);
      Some((d, Some(if e.version <= v + 1 then InTx(sub, i, v, Begun) else Finished(sub, i, false))))
    else if step.RunHandler? && wk.InTx? && wk.stage.Begun? && e.version == wk.version + 1 then
      var row := cfg.subs[sub].handle(ViewRow(d, sub, e.aggId), e);
      Some((if cfg.pooled then PooledWrite(cfg, d, sub, e) else d, Some(InTx(sub, i, wk.version, Ran(row)))))
    else if step.HideFailure? && cfg.pooled && cfg.hides && wk.InTx? && wk.stage.Begun?
      && e.version == wk.version + 1 then
      Some((d, Some(InTx(sub, i, wk.version, Hidden))))
    else if step.MarkProcessed? && wk.InTx? && MayMark(wk, e) then
      var writes := TxWrites(cfg, sub, e, wk.stage);
      Some((d, Some(InTx(sub, i, wk.version, Marked(writes, Processed(d, sub, e))))))
    else if step.CommitHandling? && wk.InTx? && wk.stage.Marked? then
      var Marked(writes, poisoned) := wk.stage;
      var possible := !poisoned && Admits(d, writes);
      if (step.effect && !possible) || (step.reported && !step.effect && possible) then None
      else
        var d' := if step.effect then Merge(d, writes) else d;
        var retry := e.version == wk.version + 1 && !step.reported;
        Some((d', Some(if retry then Attempting(sub, i) else Finished(sub, i, step.reported))))
    else if step.RetryHandling? && wk.InTx? then
      Some((d, Some(Attempting(sub, i))))
    else if step.Settle? && wk.Finished? then
      Some((if wk.ok then d.(acked := d.acked + {(i, sub)}) else d, None))
    else if step.FailHandling? then
      Some((d, Some(Finished(sub, i, false))))
    else None
  }

  /** The successor state, if the step is possible. */
  ghost function Take<S(!new), V(!new)>(cfg: Config<S, V>, s: System<S, V>, step: Step): Option<System<S, V>> {
    match step
    case ByWriter(w, action) => TakeWriter(cfg, s, w, action)
    case ByRelay(r, move) => TakeRelay(cfg, s, r, move)
    case ByWorker(p, act) => TakeWorker(cfg, s, p, act)
  }

  /** The state after a run, if every step of it is possible. */
  ghost function After<S(!new), V(!new)>(cfg: Config<S, V>, s: System<S, V>, run: seq<Step>): Option<System<S, V>>
    decreases |run|
  {
    if run == [] then Some(s)
    else
      var next := Take(cfg, s, run[0]);
      if next.None? then None else After(cfg, next.value, run[1..])
  }

  ghost predicate Reachable<S(!new), V(!new)>(cfg: Config<S, V>, s: System<S, V>) {
    exists run :: After(cfg, Start<S, V>(), run) == Some(s)
  }

  // ----- What each process may count on at each program point -----

  ghost predicate WriterOk<S(!new), V(!new)>(cfg: Config<S, V>, d: World<V>, w: Writer<S>) {
    match w
    case Loading(a, known, from, core) => LoadedUpTo(cfg, d.events, a, known, from, core)
    case Loaded(a, known, core, es) => TrackedOn(cfg, d.events, a, known, core, es)
  }

  ghost predicate RelayOk<V>(d: World<V>, r: Session, task: RelayTask) {
    Holding(d, r, task.batch, task.done)
  }

  /** Whatever handlers do: what is pending is one mark, perhaps with a row, and
      whoever is about to say nil has a processed event. */
  ghost predicate WorkerOk<S(!new), V(!new)>(cfg: Config<S, V>, d: World<V>, wk: Worker<V>) {
    && wk.sub in cfg.subs
    && wk.i < |d.messages|
    && d.messages[wk.i].aggType == cfg.subs[wk.sub].topic
    && var e := d.messages[wk.i];
      && (wk.Finished? && wk.ok ==> Processed(d, wk.sub, e))
      && (wk.InTx? && wk.stage.Marked? ==> MarkedOk(cfg, d, wk.sub, e, wk.stage))
      && (wk.InTx? && Followed(cfg, d, wk.sub, e.aggId) ==> GateOk(cfg, d, wk.sub, e, wk.version, wk.stage))
  }

  ghost predicate MarkedOk<S(!new), V(!new)>(cfg: Config<S, V>, d: World<V>, sub: SubId, e: Event, stage: Stage<V>)
    requires stage.Marked?
  {
    && (stage.poisoned ==> Processed(d, sub, e))
    && (stage.writes == MarkWrites(sub, e) || IsHandling(cfg, stage.writes, sub, e))
  }

  ghost predicate IsHandling<S(!new), V(!new)>(cfg: Config<S, V>, w: Writes<V>, sub: SubId, e: Event) {
    !cfg.pooled && w.view.Some? && w == HandleWrites(sub, e, w.view.value.row)
  }

  /** On followed streams the version gate stays passed, and rows stay right. */
  ghost predicate GateOk<S(!new), V(!new)>(
      cfg: Config<S, V>, d: World<V>, sub: SubId, e: Event, v: int, stage: Stage<V>) {
    && v <= ViewVersion(d, sub, e.aggId) && e.version <= v + 1
    && (stage.Ran? ==> e.version == v + 1 && RowReady(cfg, d, sub, e, stage.row))
    && !stage.Hidden?
    && (stage.Marked? ==>
      if IsHandling(cfg, stage.writes, sub, e) then RowReady(cfg, d, sub, e, stage.writes.view.value.row)
      else e.version <= v)
  }

  ghost predicate SystemInv<S(!new), V(!new)>(cfg: Config<S, V>, s: System<S, V>) {
    && Inv(cfg, s.world)
    && (forall w :: w in s.writers ==> WriterOk(cfg, s.world, s.writers[w]))
    && (forall r :: r in s.relays ==> RelayOk(s.world, r, s.relays[r]))
    && (forall p :: p in s.workers ==> WorkerOk(cfg, s.world, s.workers[p]))
  }

  // ----- Stability: steps of others do not disturb -----

  lemma WriterStable<S(!new), V(!new)>(cfg: Config<S, V>, d: World<V>, d': World<V>, w: Writer<S>)
    requires WriterOk(cfg, d, w) && Grows(cfg, d, d')
    ensures WriterOk(cfg, d', w)
  {
    match w
    case Loading(a, known, from, core) => LoadedUpToStable(cfg, d.events, d'.events, a, known, from, core);
    case Loaded(a, known, core, es) => TrackedOnStable(cfg, d.events, d'.events, a, known, core, es);
  }

  lemma WorkerStable<S(!new), V(!new)>(cfg: Config<S, V>, d: World<V>, d': World<V>, wk: Worker<V>)
    requires WorkerOk(cfg, d, wk) && Grows(cfg, d, d')
    ensures WorkerOk(cfg, d', wk)
  {
    var e := d.messages[wk.i];
    assert d'.messages[wk.i] == e;
    if wk.InTx? && Followed(cfg, d', wk.sub, e.aggId) {
      FollowedBefore(cfg, d, d', wk.sub, e.aggId);
      GateStable(cfg, d, d', wk.sub, e, wk.version, wk.stage);
    }
  }

  lemma GateStable<S(!new), V(!new)>(
      cfg: Config<S, V>, d: World<V>, d': World<V>, sub: SubId, e: Event, v: int, stage: Stage<V>)
    requires Followed(cfg, d', sub, e.aggId) && Grows(cfg, d, d') && GateOk(cfg, d, sub, e, v, stage)
    ensures GateOk(cfg, d', sub, e, v, stage)
  {
    assert ViewVersion(d, sub, e.aggId) <= ViewVersion(d', sub, e.aggId);
    if stage.Ran? {
      RowReadyStable(cfg, d, d', sub, e, stage.row);
    } else if stage.Marked? && IsHandling(cfg, stage.writes, sub, e) {
      RowReadyStable(cfg, d, d', sub, e, stage.writes.view.value.row);
    }
  }

  lemma WorkersStable<S(!new), V(!new)>(cfg: Config<S, V>, s: System<S, V>, d': World<V>)
    requires SystemInv(cfg, s) && Grows(cfg, s.world, d')
    ensures forall p :: p in s.workers ==> WorkerOk(cfg, d', s.workers[p])
  {
    forall p | p in s.workers
      ensures WorkerOk(cfg, d', s.workers[p])
    {
      WorkerStable(cfg, s.world, d', s.workers[p]);
    }
  }

  lemma WritersStable<S(!new), V(!new)>(cfg: Config<S, V>, s: System<S, V>, d': World<V>)
    requires SystemInv(cfg, s) && Grows(cfg, s.world, d')
    ensures forall w :: w in s.writers ==> WriterOk(cfg, d', s.writers[w])
  {
    forall w | w in s.writers
      ensures WriterOk(cfg, d', s.writers[w])
    {
      WriterStable(cfg, s.world, d', s.writers[w]);
    }
  }

  lemma OthersStable<S(!new), V(!new)>(cfg: Config<S, V>, s: System<S, V>, d': World<V>, me: Session)
    requires SystemInv(cfg, s) && Guarantee(cfg, me, s.world, d')
    ensures forall w :: w in s.writers ==> WriterOk(cfg, d', s.writers[w])
    ensures forall r :: r in s.relays && r != me ==> RelayOk(d', r, s.relays[r])
    ensures forall p :: p in s.workers ==> WorkerOk(cfg, d', s.workers[p])
  {
    WritersStable(cfg, s, d');
    forall r | r in s.relays && r != me
      ensures RelayOk(d', r, s.relays[r])
    {
      HoldingStable(cfg, s.world, d', r, s.relays[r].batch, s.relays[r].done);
    }
    WorkersStable(cfg, s, d');
  }

  lemma SessionlessStable<S(!new), V(!new)>(cfg: Config<S, V>, s: System<S, V>, d': World<V>)
    requires SystemInv(cfg, s) && Inv(cfg, d') && Grows(cfg, s.world, d') && d'.locks == s.world.locks
    ensures forall w :: w in s.writers ==> WriterOk(cfg, d', s.writers[w])
    ensures forall r :: r in s.relays ==> RelayOk(d', r, s.relays[r])
    ensures forall p :: p in s.workers ==> WorkerOk(cfg, d', s.workers[p])
  {
    WritersStable(cfg, s, d');
    forall r | r in s.relays
      ensures RelayOk(d', r, s.relays[r])
    {
      HoldingStable(cfg, s.world, d', r, s.relays[r].batch, s.relays[r].done);
    }
    WorkersStable(cfg, s, d');
  }

  // ----- Every step keeps the invariant -----

  lemma WriterStepKeepsInv<S(!new), V(!new)>(
      cfg: Config<S, V>, s: System<S, V>, w: nat, step: WriterStep, s': System<S, V>)
    requires SystemInv(cfg, s) && TakeWriter(cfg, s, w, step) == Some(s')
    ensures Inv(cfg, s'.world) && Grows(cfg, s.world, s'.world) && s'.world.locks == s.world.locks
    ensures s'.relays == s.relays && s'.workers == s.workers
    ensures forall x :: x in s'.writers ==> WriterOk(cfg, s'.world, s'.writers[x])
  {
    var d := s.world;
    match step
    case BeginCreate(a) => EmptyIsTracked(cfg, d.events, a);
    case QuerySnapshot(a) => SnapshotLoads(cfg, d, a);
    case QueryTail =>
      LoadIsReplay(cfg, d, s.writers[w].agg, s.writers[w].known, s.writers[w].from, s.writers[w].core);
    case TrackEvent(e) =>
      TrackKeepsTracked(cfg, d.events, s.writers[w].agg, s.writers[w].known, s.writers[w].core, s.writers[w].es, e);
    case CommitSave(withSnapshot) =>
      var Loaded(a, known, core, es) := s.writers[w];
      SaveKeepsInv(cfg, d, a, known, core, es, Snapshot(cfg, core, withSnapshot));
      WritersStable(cfg, s, s'.world);
    case Abandon =>
  }

  lemma EmptyIsTracked<S(!new), V(!new)>(cfg: Config<S, V>, events: seq<Event>, a: AggId)
    ensures TrackedOn(cfg, events, a, false, EmptyCore(cfg.spec), [])
  {
    assert Stream(events, a)[..0] + [] == [];
  }

  lemma RelayStepKeepsInv<S(!new), V(!new)>(
      cfg: Config<S, V>, s: System<S, V>, r: Session, step: RelayStep, s': System<S, V>)
    requires SystemInv(cfg, s) && TakeRelay(cfg, s, r, step) == Some(s')
    ensures Guarantee(cfg, r, s.world, s'.world)
    ensures s'.writers == s.writers && s'.workers == s.workers
    ensures forall x :: x in s'.relays && x != r ==> x in s.relays && s'.relays[x] == s.relays[x]
    ensures r in s'.relays ==> RelayOk(s'.world, r, s'.relays[r])
  {
    var d := s.world;
    match step
    case FetchBatch(batch) => LockKeepsInv(cfg, d, r, batch);
    case PublishNext =>
      SendNextKeepsInv(cfg, d, r, s.relays[r].batch, s.relays[r].done);
    case CommitRelay => CommitBatchKeepsInv(cfg, d, r, s.relays[r].batch);
    case RollbackRelay => UnlockKeepsInv(cfg, d, r);
  }

  lemma CommitHandlingKeepsInv<S(!new), V(!new)>(cfg: Config<S, V>, d: World<V>, wk: Worker<V>, step: WorkerStep)
    requires Inv(cfg, d) && WorkerOk(cfg, d, wk)
    requires step.CommitHandling? && wk.InTx? && wk.stage.Marked? && Handling(cfg, d, wk, step).Some?
    ensures var (d', wk') := Handling(cfg, d, wk, step).value;
      && Inv(cfg, d') && Grows(cfg, d, d') && d'.locks == d.locks
      && wk'.Some? && WorkerOk(cfg, d', wk'.value)
  {
    MarkAdmitsNone(cfg, d, wk.stage.writes, wk.sub, d.messages[wk.i]);
    if step.effect {
      MergeKeepsInv(cfg, d, wk);
    } else {
      GrowsReflexive(cfg, d);
    }
  }

  lemma MergeKeepsInv<S(!new), V(!new)>(cfg: Config<S, V>, d: World<V>, wk: Worker<V>)
    requires Inv(cfg, d) && WorkerOk(cfg, d, wk) && wk.InTx? && wk.stage.Marked?
    requires Admits(d, wk.stage.writes)
    ensures var d' := Merge(d, wk.stage.writes);
      && Inv(cfg, d') && Grows(cfg, d, d') && d'.locks == d.locks && d'.messages == d.messages
      && Processed(d', wk.sub, d.messages[wk.i])
  {
    var sub, e, w := wk.sub, d.messages[wk.i], wk.stage.writes;
    MarkAdmitsNone(cfg, d, w, sub, e);
    if IsHandling(cfg, w, sub, e) {
      HandlingIsReady(cfg, d, wk);
      HandleKeepsInv(cfg, d, sub, e, w.view.value.row);
    } else {
      MarkKeepsInv(cfg, d, sub, e);
    }
  }

  lemma HandlingIsReady<S(!new), V(!new)>(cfg: Config<S, V>, d: World<V>, wk: Worker<V>)
    requires Inv(cfg, d) && WorkerOk(cfg, d, wk) && wk.InTx? && wk.stage.Marked?
    requires IsHandling(cfg, wk.stage.writes, wk.sub, d.messages[wk.i])
    ensures RowReady(cfg, d, wk.sub, d.messages[wk.i], wk.stage.writes.view.value.row)
  {
  }

  lemma HandlingKeepsInv<S(!new), V(!new)>(cfg: Config<S, V>, d: World<V>, wk: Worker<V>, step: WorkerStep)
    requires Inv(cfg, d) && WorkerOk(cfg, d, wk) && Handling(cfg, d, wk, step).Some?
    ensures var (d', wk') := Handling(cfg, d, wk, step).value;
      && Inv(cfg, d') && Grows(cfg, d, d') && d'.locks == d.locks
      && (wk'.Some? ==> WorkerOk(cfg, d', wk'.value))
  {
    if step.CommitHandling? {
      CommitHandlingKeepsInv(cfg, d, wk, step);
    } else if step.Settle? && wk.ok {
      AckKeepsInv(cfg, d, wk.sub, wk.i);
    } else if step.RunHandler? && cfg.pooled {
      PooledRunKeepsInv(cfg, d, wk, step);
    } else {
      GrowsReflexive(cfg, d);
      QuietStepKeepsOk(cfg, d, wk, step);
    }
  }

  lemma PooledRunKeepsInv<S(!new), V(!new)>(cfg: Config<S, V>, d: World<V>, wk: Worker<V>, step: WorkerStep)
    requires Inv(cfg, d) && WorkerOk(cfg, d, wk) && Handling(cfg, d, wk, step).Some? && step.RunHandler? && cfg.pooled
    ensures var (d', wk') := Handling(cfg, d, wk, step).value;
      && Inv(cfg, d') && Grows(cfg, d, d') && d'.locks == d.locks
      && wk'.Some? && WorkerOk(cfg, d', wk'.value)
  {
    PoolKeepsInv(cfg, d, wk.sub, d.messages[wk.i]);
  }

  lemma QuietStepKeepsOk<S(!new), V(!new)>(cfg: Config<S, V>, d: World<V>, wk: Worker<V>, step: WorkerStep)
    requires Inv(cfg, d) && WorkerOk(cfg, d, wk) && Handling(cfg, d, wk, step).Some?
    requires !step.CommitHandling? && !(step.Settle? && wk.ok) && !(step.RunHandler? && cfg.pooled)
    ensures var (d', wk') := Handling(cfg, d, wk, step).value;
      d' == d && (wk'.Some? ==> WorkerOk(cfg, d, wk'.value))
  {
    if step.RunHandler? {
      HandlerMakesRowReady(cfg, d, wk.sub, d.messages[wk.i]);
    }
  }

  lemma WorkerStepKeepsInv<S(!new), V(!new)>(
      cfg: Config<S, V>, s: System<S, V>, p: nat, step: WorkerStep, s': System<S, V>)
    requires SystemInv(cfg, s) && TakeWorker(cfg, s, p, step) == Some(s')
    ensures Inv(cfg, s'.world) && Grows(cfg, s.world, s'.world) && s'.world.locks == s.world.locks
    ensures s'.writers == s.writers && s'.relays == s.relays
    ensures forall x :: x in s'.workers ==> WorkerOk(cfg, s'.world, s'.workers[x])
  {
    if step.Receive? || step.Crash? {
      GrowsReflexive(cfg, s.world);
    } else {
      WorkerActs(cfg, s, p, step, s');
      forall x | x in s'.workers
        ensures WorkerOk(cfg, s'.world, s'.workers[x])
      {
        if x != p {
          WorkerStable(cfg, s.world, s'.world, s.workers[x]);
        }
      }
    }
  }

  lemma WorkerActs<S(!new), V(!new)>(
      cfg: Config<S, V>, s: System<S, V>, p: nat, step: WorkerStep, s': System<S, V>)
    requires SystemInv(cfg, s) && TakeWorker(cfg, s, p, step) == Some(s')
    requires !step.Receive? && !step.Crash?
    ensures Inv(cfg, s'.world) && Grows(cfg, s.world, s'.world) && s'.world.locks == s.world.locks
    ensures s'.writers == s.writers && s'.relays == s.relays
    ensures p in s'.workers ==> WorkerOk(cfg, s'.world, s'.workers[p])
    ensures forall x :: x in s'.workers && x != p ==> x in s.workers && s'.workers[x] == s.workers[x]
  {
    WorkerMoved(cfg, s, p, step, s');
    HandlingKeepsInv(cfg, s.world, s.workers[p], step);
  }

  lemma WorkerMoved<S(!new), V(!new)>(
      cfg: Config<S, V>, s: System<S, V>, p: nat, step: WorkerStep, s': System<S, V>)
    requires TakeWorker(cfg, s, p, step) == Some(s') && !step.Receive? && !step.Crash?
    ensures p in s.workers && s.workers[p].sub in cfg.subs && s.workers[p].i < |s.world.messages|
    ensures Handling(cfg, s.world, s.workers[p], step).Some?
    ensures s'.writers == s.writers && s'.relays == s.relays
    ensures var (d', wk') := Handling(cfg, s.world, s.workers[p], step).value;
      s'.world == d' && (p in s'.workers ==> wk' == Some(s'.workers[p]))
    ensures forall x :: x in s'.workers && x != p ==> x in s.workers && s'.workers[x] == s.workers[x]
  {
  }

  /** The invariant is inductive, and committed state only grows. */
  lemma StepKeepsInv<S(!new), V(!new)>(cfg: Config<S, V>, s: System<S, V>, step: Step, s': System<S, V>)
    requires SystemInv(cfg, s) && Take(cfg, s, step) == Some(s')
    ensures SystemInv(cfg, s') && Grows(cfg, s.world, s'.world)
  {
    match step
    case ByWriter(w, action) =>
      WriterStepKeepsInv(cfg, s, w, action, s');
      SessionlessStable(cfg, s, s'.world);
    case ByRelay(r, move) =>
      RelayStepKeepsInv(cfg, s, r, move, s');
      OthersStable(cfg, s, s'.world, r);
    case ByWorker(p, act) =>
      WorkerStepKeepsInv(cfg, s, p, act, s');
      SessionlessStable(cfg, s, s'.world);
  }

  lemma StartInv<S(!new), V(!new)>(cfg: Config<S, V>)
    ensures SystemInv(cfg, Start<S, V>())
  {
    var d := InitialWorld<V>();
    forall sub, a | Followed(cfg, d, sub, a)
      ensures ViewOk(cfg, d, sub, a)
    {
      assert ViewRow(d, sub, a) == None;
    }
  }

  lemma {:induction false} RunKeepsInv<S(!new), V(!new)>(
      cfg: Config<S, V>, s: System<S, V>, run: seq<Step>, s': System<S, V>)
    requires SystemInv(cfg, s) && After(cfg, s, run) == Some(s')
    ensures SystemInv(cfg, s') && Grows(cfg, s.world, s'.world)
    decreases |run|
  {
    if run == [] {
      GrowsReflexive(cfg, s.world);
    } else {
      var mid := Take(cfg, s, run[0]).value;
      StepKeepsInv(cfg, s, run[0], mid);
      RunKeepsInv(cfg, mid, run[1..], s');
      GrowsTransitive(cfg, s.world, mid.world, s'.world);
    }
  }

  lemma ReachableInv<S(!new), V(!new)>(cfg: Config<S, V>, s: System<S, V>)
    requires Reachable(cfg, s)
    ensures SystemInv(cfg, s)
  {
    var run :| After(cfg, Start<S, V>(), run) == Some(s);
    StartInv(cfg);
    RunKeepsInv(cfg, Start(), run, s);
  }

  // ----- Commands and relays leave the read side alone -----

  lemma WriterKeepsViews<S(!new), V(!new)>(
      cfg: Config<S, V>, s: System<S, V>, w: nat, action: WriterStep, s': System<S, V>)
    requires TakeWriter(cfg, s, w, action) == Some(s')
    ensures s'.world.views == s.world.views && s'.world.processed == s.world.processed
    ensures s.world.events <= s'.world.events && s'.world.messages == s.world.messages && s'.workers == s.workers
  {
  }

  lemma RelayKeepsViews<S(!new), V(!new)>(
      cfg: Config<S, V>, s: System<S, V>, r: Session, move: RelayStep, s': System<S, V>)
    requires TakeRelay(cfg, s, r, move) == Some(s')
    ensures s'.world.views == s.world.views && s'.world.processed == s.world.processed
    ensures s.world.events <= s'.world.events && s.world.messages <= s'.world.messages && s'.workers == s.workers
  {
  }

  // ----- Relays and workers leave the write side alone -----

  lemma RelayKeepsWriteSide<S(!new), V(!new)>(
      cfg: Config<S, V>, s: System<S, V>, r: Session, move: RelayStep, s': System<S, V>)
    requires TakeRelay(cfg, s, r, move) == Some(s')
    ensures s'.world.events == s.world.events && s'.world.snapshots == s.world.snapshots && s'.writers == s.writers
  {
  }

  /** Handling a message touches views, marks and acknowledgements only. */
  lemma HandlingTouchesViews<S(!new), V(!new)>(cfg: Config<S, V>, d: World<V>, wk: Worker<V>, act: WorkerStep)
    requires WorkerOk(cfg, d, wk) && Handling(cfg, d, wk, act).Some?
    ensures var d' := Handling(cfg, d, wk, act).value.0;
      d' == d.(views := d'.views, processed := d'.processed, applied := d'.applied, acked := d'.acked)
  {
    if act.CommitHandling? {
      var w, e := wk.stage.writes, d.messages[wk.i];
      var row := if w.view.Some? then w.view.value.row else None;
      ProjectionMerge(d, w, wk.sub, e, row);
    }
  }

  lemma WorkerKeepsWriteSide<S(!new), V(!new)>(
      cfg: Config<S, V>, s: System<S, V>, p: nat, act: WorkerStep, s': System<S, V>)
    requires SystemInv(cfg, s) && TakeWorker(cfg, s, p, act) == Some(s')
    ensures s'.writers == s.writers && s'.relays == s.relays
    ensures s'.world == s.world.(views := s'.world.views, processed := s'.world.processed, applied := s'.world.applied,
      acked := s'.world.acked)
  {
    if !act.Receive? && !act.Crash? {
      WorkerMoved(cfg, s, p, act, s');
      HandlingTouchesViews(cfg, s.world, s.workers[p], act);
    }
  }
}
