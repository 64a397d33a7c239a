/** Work-item lifecycle events and the observable timeline of one or more
    invocations: events in the order they are published, interleaved with the
    calls made to the security runner. */
module Lifecycle {
  import opened Wrappers
  import opened Params
  import opened Security

  datatype Phase = InProgress | Failed | Succeeded

  /** One `WorkItemLifecyclePublisher.publish` call. `params` is `None` when
      the caller passed a null map; otherwise it is the map at publish time. */
  datatype Event = Event(
    workItemUid: string,
    params: Option<ParamEntries>,
    phase: Phase,
    message: Option<string>)

  datatype Entry =
    | Published(event: Event)
    | RunnerCalled(identity: RunIdentity, runner: ActionRunner)

  predicate IsPhase(e: Entry, phase: Phase)
  {
    e.Published? && e.event.phase == phase
  }

  /** The number of published events of the given phase. */
  function PhaseCount(t: seq<Entry>, phase: Phase): nat
  {
    if t == [] then 0
    else (if IsPhase(t[0], phase) then 1 else 0) + PhaseCount(t[1..], phase)
  }

  /** The number of calls made to the security runner. */
  function RunCount(t: seq<Entry>): nat
  {
    if t == [] then 0
    else (if t[0].RunnerCalled? then 1 else 0) + RunCount(t[1..])
  }

  /** Counting distributes over the concatenation of two timelines. */
  lemma {:induction false} CountsConcat(a: seq<Entry>, b: seq<Entry>)
    ensures forall phase :: PhaseCount(a + b, phase) == PhaseCount(a, phase) + PhaseCount(b, phase)
    ensures RunCount(a + b) == RunCount(a) + RunCount(b)
  {
    if a == [] {
      assert a + b == b;
    } else {
      CountsConcat(a[1..], b);
      assert (a + b)[1..] == a[1..] + b;
    }
  }

  /** The counts of a one-entry timeline. */
  lemma CountsSingle(x: Entry)
    ensures forall phase :: PhaseCount([x], phase) == if IsPhase(x, phase) then 1 else 0
    ensures RunCount([x]) == if x.RunnerCalled? then 1 else 0
  {
  }

  /** The timeline: the publisher appends events, the security runner
      appends the calls it receives. */
  class Timeline {
    var entries: seq<Entry>

    constructor ()
      ensures entries == []
    {
      entries := [];
    }

    /** `WorkItemLifecyclePublisher.publish`: never fails, appends one event. */
    method Publish(workItemUid: string, params: Option<ParamEntries>, phase: Phase, message: Option<string>)
      modifies this
      ensures entries == old(entries) + [Published(Event(workItemUid, params, phase, message))]
    {
      entries := entries + [Published(Event(workItemUid, params, phase, message))];
    }

    /** `SecurityHelper.runAsAnonymous(runner)`. */
    method RunAsAnonymous(run: Runner, runner: ActionRunner) returns (outcome: RunOutcome)
      modifies this
      ensures entries == old(entries) + [RunnerCalled(Anonymous, runner)]
      ensures outcome == run(Anonymous, runner)
    {
      entries := entries + [RunnerCalled(Anonymous, runner)];
      outcome := run(Anonymous, runner);
    }

    /** `SecurityHelper.runAsUser(user, runner)`. */
    method RunAsUser(run: Runner, user: string, runner: ActionRunner) returns (outcome: RunOutcome)
      modifies this
      ensures entries == old(entries) + [RunnerCalled(AsUser(user), runner)]
      ensures outcome == run(AsUser(user), runner)
    {
      entries := entries + [RunnerCalled(AsUser(user), runner)];
      outcome := run(AsUser(user), runner);
    }
  }
}
