/** Event-sourced aggregates (eventsrc/aggregate.go).

    The concrete aggregate enters as an `AggregateSpec`: its Apply and Validate
    functions and its snapshot codec.  `Replay` is what LoadFromHistory does to
    an empty aggregate, including the early stop at the first rejected event. */
module Aggregates {
  import opened Events

  /** Everything an aggregate holds except its uncommitted events. */
  datatype Core<+S> = Core(id: AggId, version: int, state: S)

  /** What Apply leaves behind; a rejected event may leave a changed core too. */
  datatype Applied<+S> = Applied(core: Core<S>, ok: bool)

  datatype AggregateSpec<!S(!new)> = AggregateSpec(
    aggType: string,
    empty: S,
    apply: (Core<S>, Event) -> Applied<S>,
    valid: Core<S> -> bool,
    marshal: Core<S> -> Option<string>,
    unmarshal: string -> Option<Core<S>>)

  function EmptyCore<S(!new)>(spec: AggregateSpec<S>): Core<S> {
    Core(NIL_ID, 0, spec.empty)
  }

  /** LoadFromHistory: apply in order, stop at the first failure. */
  function ReplayFrom<S(!new)>(spec: AggregateSpec<S>, c: Core<S>, es: seq<Event>): Applied<S>
    decreases |es|
  {
    if es == [] then Applied(c, true)
    else
      var step := spec.apply(c, es[0]);
      if step.ok then ReplayFrom(spec, step.core, es[1..]) else step
  }

  function Replay<S(!new)>(spec: AggregateSpec<S>, es: seq<Event>): Applied<S> {
    ReplayFrom(spec, EmptyCore(spec), es)
  }

  /** Apply gives the aggregate the version of the event it accepted. */
  ghost predicate AppliesVersions<S(!new)>(spec: AggregateSpec<S>) {
    forall c, e ::
      var r := spec.apply(c, e);
      r.core.version == e.version || (!r.ok && r.core.version == c.version)
  }

  /** Unmarshalling a snapshot restores the aggregate that was marshalled. */
  ghost predicate Lossless<S(!new)>(spec: AggregateSpec<S>) {
    forall c :: spec.marshal(c).Some? ==> spec.unmarshal(spec.marshal(c).value) == Some(c)
  }

  /** The snapshot does not carry the unexported version: it comes back as 0. */
  ghost predicate ForgetsVersion<S(!new)>(spec: AggregateSpec<S>) {
    forall c :: spec.marshal(c).Some? ==>
      spec.unmarshal(spec.marshal(c).value).Some? ==> spec.unmarshal(spec.marshal(c).value).value.version == 0
  }

  /** Every non-empty prefix replays without error, to a valid aggregate that
      carries the id of the stream and the version of the prefix. */
  ghost predicate Wholesome<S(!new)>(spec: AggregateSpec<S>, a: AggId, es: seq<Event>) {
    forall k :: 1 <= k <= |es| ==> WholesomeAt(spec, a, es[..k], k)
  }

  ghost predicate WholesomeAt<S(!new)>(spec: AggregateSpec<S>, a: AggId, es: seq<Event>, k: nat) {
    var r := Replay(spec, es);
    r.ok && spec.valid(r.core) && r.core.id == a && r.core.version == k
  }

  lemma {:induction false} ReplayConcat<S(!new)>(spec: AggregateSpec<S>, c: Core<S>, es: seq<Event>, more: seq<Event>)
    ensures var r := ReplayFrom(spec, c, es);
      ReplayFrom(spec, c, es + more) == if r.ok then ReplayFrom(spec, r.core, more) else r
    decreases |es|
  {
    if es == [] {
      assert es + more == more;
    } else {
      assert (es + more)[1..] == es[1..] + more;
      ReplayConcat(spec, spec.apply(c, es[0]).core, es[1..], more);
    }
  }

  /** The version a replay ends with is the one it started with or one it saw. */
  lemma {:induction false} ReplayVersion<S(!new)>(spec: AggregateSpec<S>, c: Core<S>, es: seq<Event>)
    requires AppliesVersions(spec)
    ensures var v := ReplayFrom(spec, c, es).core.version;
      v == c.version || exists e :: e in es && v == e.version
    ensures es != [] && ReplayFrom(spec, c, es).ok ==> ReplayFrom(spec, c, es).core.version == es[|es| - 1].version
    decreases |es|
  {
    if es != [] {
      ReplayVersion(spec, spec.apply(c, es[0]).core, es[1..]);
      assert es[0] in es;
    }
  }

  /** TrackChange as a function: the core afterwards and the reported error. */
  function Track<S(!new)>(spec: AggregateSpec<S>, c: Core<S>, e: Event): (Core<S>, Error) {
    var r := spec.apply(c, e);
    (r.core, if !r.ok then ApplyFailed else if !spec.valid(r.core) then ValidationFailed else Nil)
  }

  /** Successful TrackChange calls, one after the other. */
  ghost predicate TracksTo<S(!new)>(spec: AggregateSpec<S>, c: Core<S>, es: seq<Event>, c': Core<S>)
    decreases |es|
  {
    if es == [] then c == c'
    else Track(spec, c, es[0]).1.Nil? && TracksTo(spec, Track(spec, c, es[0]).0, es[1..], c')
  }

  /** In memory, loading a history and tracking events successfully is the same
      as replaying the history followed by those events, every state valid. */
  lemma {:induction false} TrackingIsReplay<S(!new)>(spec: AggregateSpec<S>, c: Core<S>, es: seq<Event>, c': Core<S>)
    ensures TracksTo(spec, c, es, c') <==>
      && ReplayFrom(spec, c, es) == Applied(c', true)
      && forall k :: 1 <= k <= |es| ==> spec.valid(ReplayFrom(spec, c, es[..k]).core)
    decreases |es|
  {
    if es != [] {
      var step := spec.apply(c, es[0]);
      TrackingIsReplay(spec, step.core, es[1..], c');
      assert ReplayFrom(spec, c, es[..1]).core == step.core by {
        assert es[..1][1..] == [];
        assert ReplayFrom(spec, step.core, []) == Applied(step.core, true);
      }
      if step.ok {
        forall k | 1 <= k <= |es|
          ensures ReplayFrom(spec, c, es[..k]) == ReplayFrom(spec, step.core, es[1..][..k - 1])
        {
          assert es[..k][1..] == es[1..][..k - 1];
        }
        forall k | 1 <= k <= |es[1..]|
          ensures ReplayFrom(spec, step.core, es[1..][..k]) == ReplayFrom(spec, c, es[..k + 1])
        {
          assert es[..k + 1][1..] == es[1..][..k];
        }
        assert es[1..][..0] == [];
      }
    }
  }

  /** The base of every aggregate: identity, version, uncommitted events. */
  class AggregateRoot<S(!new)> {
    const spec: AggregateSpec<S>
    var id: AggId
    var version: int
    var state: S
    var events: seq<Event>

    function Contents(): Core<S>
      reads this
    {
      Core(id, version, state)
    }

    constructor (spec: AggregateSpec<S>)
      ensures this.spec == spec && Contents() == EmptyCore(spec) && events == []
    {
      this.spec := spec;
      id, version, state, events := NIL_ID, 0, spec.empty, [];
    }

    method Apply(evt: Event) returns (ok: bool)
      modifies this
      ensures Applied(Contents(), ok) == spec.apply(old(Contents()), evt)
      ensures events == old(events)
    {
      var r := spec.apply(Contents(), evt);
      id, version, state, ok := r.core.id, r.core.version, r.core.state, r.ok;
    }

    /** A rejected change is reported, but the aggregate stays changed: only
        the list of uncommitted events is left alone. */
    method TrackChange(evt: Event) returns (err: Error)
      modifies this
      ensures (Contents(), err) == Track(spec, old(Contents()), evt)
      ensures events == if err.Nil? then old(events) + [evt] else old(events)
    {
      var ok := Apply(evt);
      if !ok {
        return ApplyFailed;
      }
      if !spec.valid(Contents()) {
        return ValidationFailed;
      }
      events := events + [evt];
      return Nil;
    }

    /** Replays without validating; stops at the first rejected event. */
    method LoadFromHistory(history: seq<Event>) returns (err: Error)
      modifies this
      ensures Applied(Contents(), err.Nil?) == ReplayFrom(spec, old(Contents()), history)
      ensures err.Nil? || err.ApplyFailed?
      ensures events == old(events)
    {
      for i := 0 to |history|
        invariant events == old(events)
        invariant ReplayFrom(spec, old(Contents()), history) == ReplayFrom(spec, Contents(), history[i..])
      {
        var ok := Apply(history[i]);
        assert history[i..][1..] == history[i + 1..];
        if !ok {
          return ApplyFailed;
        }
      }
      return Nil;
    }

    /** UnmarshalJSON into a fresh aggregate. */
    method Restore(payload: string) returns (err: Error)
      modifies this
      ensures err == if spec.unmarshal(payload).Some? then Nil else Decoding
      ensures err.Nil? ==> Contents() == spec.unmarshal(payload).value && events == []
    {
      match spec.unmarshal(payload)
      case None => return Decoding;
      case Some(c) =>
        id, version, state, events := c.id, c.version, c.state, [];
        return Nil;
    }

    method ClearUncommittedEvents()
      modifies this`events
      ensures events == []
    {
      events := [];
    }
  }
}
