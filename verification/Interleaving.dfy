/** Convergence without standing still: while commands, relays and any number of
    workers go on, every round in which the messages waiting at its start are handled
    to the end moves every lagging view by at least one version. */
module Interleaving {
  import opened Events
  import opened World
  import opened Projecting
  import opened Machine
  import opened Convergence

  /** Worker p neither crashes nor gives a message up. */
  ghost predicate Steady(run: seq<Step>, p: nat) {
    forall act :: ByWorker(p, act) in run ==> !act.Crash? && !act.FailHandling?
  }

  /** Between the states m and n of the run, worker p handles message i to the end:
      from its arrival to a result, whatever that is, with retries if need be. */
  ghost predicate HandledBy<S(!new), V(!new)>(
      cfg: Config<S, V>, s: System<S, V>, run: seq<Step>, sub: SubId, i: nat, p: nat, m: nat, n: nat) {
    && m <= n <= |run| && Steady(run[m..n], p)
    && var from, to := After(cfg, s, run[..m]), After(cfg, s, run[..n]);
      && from.Some? && p in from.value.workers && from.value.workers[p] == Received(sub, i)
      && to.Some? && p in to.value.workers && to.value.workers[p].Finished?
      && to.value.workers[p].sub == sub && to.value.workers[p].i == i
  }

  ghost predicate Handled<S(!new), V(!new)>(
      cfg: Config<S, V>, s: System<S, V>, run: seq<Step>, sub: SubId, i: nat) {
    exists p: nat, m: nat, n: nat :: HandledBy(cfg, s, run, sub, i, p, m, n)
  }

  /** Every message un-acknowledged at the start of the round is handled in it. */
  ghost predicate Round<S(!new), V(!new)>(cfg: Config<S, V>, s: System<S, V>, run: seq<Step>, sub: SubId)
    requires sub in cfg.subs
  {
    forall i: nat :: i < |s.world.messages| && (i, sub) !in s.world.acked ==>
      s.world.messages[i].aggType == cfg.subs[sub].topic ==> Handled(cfg, s, run, sub, i)
  }

  /** The first n events of the stream have been sent. */
  ghost predicate SentUpTo<V>(d: World<V>, a: AggId, n: nat) {
    n <= |Stream(d.events, a)| && forall k :: 0 <= k < n ==> Stream(d.events, a)[k] in d.messages
  }

  // ----- One message -----

  /** A result for message i means that its event is processed. */
  ghost predicate ResultMeansProcessed<S, V>(s: System<S, V>, p: nat, sub: SubId, i: nat) {
    p in s.workers && s.workers[p].Finished? && s.workers[p].sub == sub && s.workers[p].i == i ==>
      i < |s.world.messages| && Processed(s.world, sub, s.world.messages[i])
  }

  lemma CommitLeavesProcessed<S(!new), V(!new)>(cfg: Config<S, V>, d: World<V>, wk: Worker<V>, act: WorkerStep)
    requires Inv(cfg, d) && WorkerOk(cfg, d, wk) && Handling(cfg, d, wk, act).Some? && act.CommitHandling?
    requires Followed(cfg, d, wk.sub, d.messages[wk.i].aggId)
    ensures var (d', wk') := Handling(cfg, d, wk, act).value;
      wk'.Some? && wk'.value.Finished? ==> Processed(d', wk.sub, d.messages[wk.i])
  {
    var e, w := d.messages[wk.i], wk.stage.writes;
    MarkAdmitsNone(cfg, d, w, wk.sub, e);
    ProjectionMerge(d, w, wk.sub, e, if w.view.Some? then w.view.value.row else None);
    if e.version <= ViewVersion(d, wk.sub, e.aggId) {
      OldEventIsProcessed(cfg, d, wk.sub, e);
    }
  }

  lemma HandlingKeepsResult<S(!new), V(!new)>(cfg: Config<S, V>, d: World<V>, wk: Worker<V>, act: WorkerStep)
    requires Inv(cfg, d) && WorkerOk(cfg, d, wk) && Handling(cfg, d, wk, act).Some? && !act.FailHandling?
    requires Followed(cfg, d, wk.sub, d.messages[wk.i].aggId)
    requires d.messages[wk.i].version - 1 <= ViewVersion(d, wk.sub, d.messages[wk.i].aggId)
    ensures var (d', wk') := Handling(cfg, d, wk, act).value;
      wk'.Some? && wk'.value.Finished? ==> Processed(d', wk.sub, d.messages[wk.i])
  {
    if act.CommitHandling? {
      CommitLeavesProcessed(cfg, d, wk, act);
    }
  }

  lemma HandlingStays<S(!new), V(!new)>(cfg: Config<S, V>, d: World<V>, wk: Worker<V>, act: WorkerStep)
    requires WorkerOk(cfg, d, wk) && Handling(cfg, d, wk, act).Some?
    ensures var (_, wk') := Handling(cfg, d, wk, act).value;
      wk'.Some? ==> wk'.value.sub == wk.sub && wk'.value.i == wk.i
  {
  }

  /** A result stays a result while others move. */
  lemma ResultStays<S(!new), V(!new)>(
      cfg: Config<S, V>, s: System<S, V>, s': System<S, V>, p: nat, sub: SubId, i: nat)
    requires ResultMeansProcessed(s, p, sub, i) && Grows(cfg, s.world, s'.world)
    requires p in s'.workers && s'.workers[p].Finished? ==> p in s.workers && s'.workers[p] == s.workers[p]
    ensures ResultMeansProcessed(s', p, sub, i)
  {
  }

  lemma StepKeepsResult<S(!new), V(!new)>(
      cfg: Config<S, V>, s: System<S, V>, step: Step, s': System<S, V>, p: nat, sub: SubId, i: nat)
    requires SystemInv(cfg, s) && ResultMeansProcessed(s, p, sub, i) && Take(cfg, s, step) == Some(s')
    requires i < |s.world.messages| && Steady([step], p)
    requires var e := s.world.messages[i];
      Followed(cfg, s.world, sub, e.aggId) && e.version - 1 <= ViewVersion(s.world, sub, e.aggId)
    ensures ResultMeansProcessed(s', p, sub, i)
  {
    StepKeepsInv(cfg, s, step, s');
    if step.ByWorker? && step.p == p {
      assert ByWorker(p, step.act) in [step];
      if step.act.Receive? {
        ResultStays(cfg, s, s', p, sub, i);
      } else {
        OwnStepKeepsResult(cfg, s, p, step.act, s', sub, i);
      }
    } else {
      OthersKeepWorker(cfg, s, step, s', p);
      ResultStays(cfg, s, s', p, sub, i);
    }
  }

  lemma OthersKeepWorker<S(!new), V(!new)>(
      cfg: Config<S, V>, s: System<S, V>, step: Step, s': System<S, V>, p: nat)
    requires Take(cfg, s, step) == Some(s') && !(step.ByWorker? && step.p == p)
    ensures p in s'.workers ==> p in s.workers && s'.workers[p] == s.workers[p]
  {
  }

  lemma OwnStepKeepsResult<S(!new), V(!new)>(
      cfg: Config<S, V>, s: System<S, V>, p: nat, act: WorkerStep, s': System<S, V>, sub: SubId, i: nat)
    requires SystemInv(cfg, s) && ResultMeansProcessed(s, p, sub, i) && TakeWorker(cfg, s, p, act) == Some(s')
    requires Grows(cfg, s.world, s'.world)
    requires !act.Receive? && !act.Crash? && !act.FailHandling? && i < |s.world.messages|
    requires var e := s.world.messages[i];
      Followed(cfg, s.world, sub, e.aggId) && e.version - 1 <= ViewVersion(s.world, sub, e.aggId)
    ensures ResultMeansProcessed(s', p, sub, i)
  {
    WorkerMoved(cfg, s, p, act, s');
    var wk := s.workers[p];
    HandlingStays(cfg, s.world, wk, act);
    if wk.sub == sub && wk.i == i {
      HandlingKeepsResult(cfg, s.world, wk, act);
    }
  }

  /** From a state in which the event is next for its view, or within it: whatever runs
      in between, when worker p has a result for the message, the event is processed. */
  lemma {:induction false} ResultAfterRun<S(!new), V(!new)>(
      cfg: Config<S, V>, s: System<S, V>, run: seq<Step>, s': System<S, V>, p: nat, sub: SubId, i: nat)
    requires SystemInv(cfg, s) && ResultMeansProcessed(s, p, sub, i) && After(cfg, s, run) == Some(s')
    requires i < |s.world.messages| && Steady(run, p)
    requires var e := s.world.messages[i];
      Followed(cfg, s'.world, sub, e.aggId) && e.version - 1 <= ViewVersion(s.world, sub, e.aggId)
    ensures ResultMeansProcessed(s', p, sub, i)
    decreases |run|
  {
    if run != [] {
      var mid := Take(cfg, s, run[0]).value;
      var a := s.world.messages[i].aggId;
      StepKeepsInv(cfg, s, run[0], mid);
      RunKeepsInv(cfg, mid, run[1..], s');
      FollowedBefore(cfg, mid.world, s'.world, sub, a);
      FollowedBefore(cfg, s.world, mid.world, sub, a);
      assert ViewVersion(s.world, sub, a) <= ViewVersion(mid.world, sub, a);
      assert run[0] in run;
      assert forall step :: step in [run[0]] ==> step in run;
      StepKeepsResult(cfg, s, run[0], mid, p, sub, i);
      ResultAfterRun(cfg, mid, run[1..], s', p, sub, i);
    }
  }

  // ----- One round -----

  lemma {:induction false} AfterSplit<S(!new), V(!new)>(
      cfg: Config<S, V>, s: System<S, V>, run: seq<Step>, n: nat)
    requires n <= |run| && After(cfg, s, run).Some?
    ensures After(cfg, s, run[..n]).Some?
    ensures After(cfg, After(cfg, s, run[..n]).value, run[n..]) == After(cfg, s, run)
    decreases |run|
  {
    if n == 0 {
      assert run[..0] == [] && run[0..] == run;
    } else {
      AfterSplit(cfg, Take(cfg, s, run[0]).value, run[1..], n - 1);
      assert run[..n][1..] == run[1..][..n - 1] && run[1..][n - 1..] == run[n..];
    }
  }

  /** The run in three parts: before m, from m to n, and the rest. */
  lemma Parts<S(!new), V(!new)>(
      cfg: Config<S, V>, s: System<S, V>, run: seq<Step>, s': System<S, V>, m: nat, n: nat)
      returns (from: System<S, V>, to: System<S, V>)
    requires After(cfg, s, run) == Some(s') && m <= n <= |run|
    ensures After(cfg, s, run[..m]) == Some(from) && After(cfg, s, run[..n]) == Some(to)
    ensures After(cfg, from, run[m..n]) == Some(to) && After(cfg, to, run[n..]) == Some(s')
  {
    AfterSplit(cfg, s, run, n);
    AfterSplit(cfg, s, run[..n], m);
    assert run[..n][..m] == run[..m] && run[..n][m..] == run[m..n];
    from, to := After(cfg, s, run[..m]).value, After(cfg, s, run[..n]).value;
  }

  /** What is followed at the end of a run was so before, and its view advances. */
  lemma RunAdvances<S(!new), V(!new)>(
      cfg: Config<S, V>, s: System<S, V>, run: seq<Step>, s': System<S, V>, sub: SubId, a: AggId)
    requires SystemInv(cfg, s) && After(cfg, s, run) == Some(s') && Followed(cfg, s'.world, sub, a)
    ensures SystemInv(cfg, s') && Followed(cfg, s.world, sub, a)
    ensures ViewVersion(s.world, sub, a) <= ViewVersion(s'.world, sub, a)
    ensures s.world.messages <= s'.world.messages && s.world.processed <= s'.world.processed
  {
    RunKeepsInv(cfg, s, run, s');
    FollowedBefore(cfg, s.world, s'.world, sub, a);
  }

  /** What is followed at the end was followed all along. */
  lemma FollowedAllAlong<S(!new), V(!new)>(
      cfg: Config<S, V>, s: System<S, V>, before: seq<Step>, from: System<S, V>, during: seq<Step>,
      to: System<S, V>, after: seq<Step>, s': System<S, V>, sub: SubId, a: AggId)
    requires SystemInv(cfg, s) && After(cfg, s, before) == Some(from) && After(cfg, from, during) == Some(to)
    requires After(cfg, to, after) == Some(s') && Followed(cfg, s'.world, sub, a)
    ensures SystemInv(cfg, from) && Followed(cfg, to.world, sub, a)
    ensures ViewVersion(s.world, sub, a) <= ViewVersion(from.world, sub, a)
    ensures s.world.messages <= from.world.messages <= to.world.messages && to.world.processed <= s'.world.processed
  {
    RunKeepsInv(cfg, s, before, from);
    RunKeepsInv(cfg, from, during, to);
    RunAdvances(cfg, to, after, s', sub, a);
    RunAdvances(cfg, from, during, to, sub, a);
    RunAdvances(cfg, s, before, from, sub, a);
  }

  /** A message that was handled to the end during the run: its event is processed. */
  lemma HandledIsProcessed<S(!new), V(!new)>(
      cfg: Config<S, V>, s: System<S, V>, run: seq<Step>, s': System<S, V>, sub: SubId, i: nat)
    requires SystemInv(cfg, s) && After(cfg, s, run) == Some(s')
    requires i < |s.world.messages| && Handled(cfg, s, run, sub, i)
    requires var e := s.world.messages[i];
      Followed(cfg, s'.world, sub, e.aggId) && e.version - 1 <= ViewVersion(s.world, sub, e.aggId)
    ensures Processed(s'.world, sub, s.world.messages[i])
  {
    var p: nat, m: nat, n: nat :| HandledBy(cfg, s, run, sub, i, p, m, n);
    var from, to := Parts(cfg, s, run, s', m, n);
    FollowedAllAlong(cfg, s, run[..m], from, run[m..n], to, run[n..], s', sub, s.world.messages[i].aggId);
    ResultAfterRun(cfg, from, run[m..n], to, p, sub, i);
  }

  /** A round moves a lagging view at least one step, whatever else happens in it. */
  lemma RoundAdvances<S(!new), V(!new)>(
      cfg: Config<S, V>, s: System<S, V>, run: seq<Step>, s': System<S, V>, sub: SubId, a: AggId, n: nat)
    requires SystemInv(cfg, s) && After(cfg, s, run) == Some(s')
    requires Followed(cfg, s'.world, sub, a)
    requires Round(cfg, s, run, sub) && OnTopic(cfg, s.world, sub, a)
    requires SentUpTo(s.world, a, n) && ViewVersion(s.world, sub, a) < n
    ensures ViewVersion(s.world, sub, a) + 1 <= ViewVersion(s'.world, sub, a)
  {
    RunKeepsInv(cfg, s, run, s');
    FollowedBefore(cfg, s.world, s'.world, sub, a);
    assert ViewOk(cfg, s.world, sub, a) && ViewOk(cfg, s'.world, sub, a);
    var e := Stream(s.world.events, a)[ViewVersion(s.world, sub, a)];
    StreamMembers(s.world.events, a);
    assert e in Stream(s.world.events, a);
    var i :| 0 <= i < |s.world.messages| && s.world.messages[i] == e;
    assert (i, sub) !in s.world.acked;
    HandledIsProcessed(cfg, s, run, s', sub, i);
  }

  // ----- Round after round -----

  ghost predicate Rounds<S(!new), V(!new)>(
      cfg: Config<S, V>, s: System<S, V>, runs: seq<seq<Step>>, sub: SubId, s': System<S, V>)
    requires sub in cfg.subs
    decreases |runs|
  {
    if runs == [] then s' == s
    else
      var next := After(cfg, s, runs[0]);
      next.Some? && Round(cfg, s, runs[0], sub) && Rounds(cfg, next.value, runs[1..], sub, s')
  }

  lemma {:induction false} RoundsKeepInv<S(!new), V(!new)>(
      cfg: Config<S, V>, s: System<S, V>, runs: seq<seq<Step>>, sub: SubId, s': System<S, V>)
    requires SystemInv(cfg, s) && sub in cfg.subs && Rounds(cfg, s, runs, sub, s')
    ensures SystemInv(cfg, s') && Grows(cfg, s.world, s'.world)
    decreases |runs|
  {
    if runs == [] {
      GrowsReflexive(cfg, s.world);
    } else {
      var mid := After(cfg, s, runs[0]).value;
      RunKeepsInv(cfg, s, runs[0], mid);
      RoundsKeepInv(cfg, mid, runs[1..], sub, s');
      GrowsTransitive(cfg, s.world, mid.world, s'.world);
    }
  }

  lemma SentStays<V>(d: World<V>, d': World<V>, a: AggId, n: nat)
    requires SentUpTo(d, a, n) && d.events <= d'.events && d.messages <= d'.messages
    ensures SentUpTo(d', a, n)
  {
    StreamPrefix(d.events, d'.events, a);
    forall k | 0 <= k < n
      ensures Stream(d'.events, a)[k] in d'.messages
    {
      assert Stream(d'.events, a)[k] == Stream(d.events, a)[k];
    }
  }

  /** One round brings a view that has not reached n a version further. */
  lemma OneRound<S(!new), V(!new)>(
      cfg: Config<S, V>, s: System<S, V>, run: seq<Step>, s': System<S, V>, sub: SubId, a: AggId, n: nat)
    requires SystemInv(cfg, s) && After(cfg, s, run) == Some(s') && Followed(cfg, s'.world, sub, a)
    requires Round(cfg, s, run, sub) && OnTopic(cfg, s'.world, sub, a) && SentUpTo(s.world, a, n)
    ensures SentUpTo(s'.world, a, n) && ViewVersion(s.world, sub, a) <= ViewVersion(s'.world, sub, a)
    ensures n <= ViewVersion(s'.world, sub, a) || ViewVersion(s.world, sub, a) + 1 <= ViewVersion(s'.world, sub, a)
  {
    RunKeepsInv(cfg, s, run, s');
    FollowedBefore(cfg, s.world, s'.world, sub, a);
    TopicBefore(cfg, s.world, s'.world, sub, a);
    SentStays(s.world, s'.world, a, n);
    if ViewVersion(s.world, sub, a) < n {
      RoundAdvances(cfg, s, run, s', sub, a, n);
    }
  }

  lemma TopicBefore<S(!new), V(!new)>(cfg: Config<S, V>, d: World<V>, d': World<V>, sub: SubId, a: AggId)
    requires sub in cfg.subs && d.events <= d'.events && OnTopic(cfg, d', sub, a)
    ensures OnTopic(cfg, d, sub, a)
  {
    StreamPrefix(d.events, d'.events, a);
    assert forall e :: e in Stream(d.events, a) ==> e in Stream(d'.events, a);
  }

  /** Convergence under interleaving.  If the first n events of a stream have been sent,
      then after n rounds, with any commands, relays and other workers in between, the
      view has them all, and is the fold of a prefix that contains them.  All it takes
      is that the handler follows the stream and writes in the transaction. */
  lemma {:induction false} RoundsConverge<S(!new), V(!new)>(
      cfg: Config<S, V>, s: System<S, V>, runs: seq<seq<Step>>, s': System<S, V>, sub: SubId, a: AggId, n: nat)
    requires SystemInv(cfg, s) && Followed(cfg, s'.world, sub, a) && Rounds(cfg, s, runs, sub, s')
    requires OnTopic(cfg, s'.world, sub, a) && SentUpTo(s.world, a, n)
    ensures var v := ViewVersion(s'.world, sub, a);
      && 0 <= v <= |Stream(s'.world.events, a)|
      && (n <= v || ViewVersion(s.world, sub, a) + |runs| <= v)
      && ViewRow(s'.world, sub, a) == ViewFold(cfg.subs[sub], Stream(s'.world.events, a)[..v])
      && (n <= |runs| ==> n <= v)
    decreases |runs|
  {
    RoundsKeepInv(cfg, s, runs, sub, s');
    FollowedBefore(cfg, s.world, s'.world, sub, a);
    assert ViewOk(cfg, s.world, sub, a) && ViewOk(cfg, s'.world, sub, a);
    if runs != [] {
      var mid := After(cfg, s, runs[0]).value;
      RunKeepsInv(cfg, s, runs[0], mid);
      RoundsKeepInv(cfg, mid, runs[1..], sub, s');
      FollowedBefore(cfg, mid.world, s'.world, sub, a);
      TopicBefore(cfg, mid.world, s'.world, sub, a);
      OneRound(cfg, s, runs[0], mid, sub, a, n);
      RoundsConverge(cfg, mid, runs[1..], s', sub, a, n);
    }
  }
}
