/** `DefaultActionInvoker.invokeActionImpl`: one local run of a scheduled
    action. `Invocation` is its specification over snapshots of the inputs;
    `InvokeActionImpl` is the step-by-step method proved against it; the
    lemmas state what one invocation guarantees. */
module Invoker {
  import opened Wrappers
  import opened Params
  import opened Security
  import opened Lifecycle

  /** The text of `Messages.getCantInvokeNullAction()`. */
  const CantInvokeNullAction: string := "Can't invoke null action"

  /** The action details as handed to the invoker. The parameter map is an
      object that the invocation changes in place. */
  datatype ActionDetails = ActionDetails(
    action: Option<Action>,
    parameters: ParamMap?,
    userName: Option<string>)

  /** A value snapshot of `ActionDetails`, with the map's current entries. */
  datatype Request = Request(
    action: Option<Action>,
    parameters: Option<ParamEntries>,
    userName: Option<string>)

  /** The collaborators the invoker calls but does not define. */
  datatype Environment = Environment(
    extractUid: Option<Request> -> string,                 // ActionUtil.extractUid
    defaultLocale: Value,                                   // LocaleHelper.getLocale()
    streamProviderOf: ParamEntries -> Option<StreamProvider>,     // getStreamProvider
    run: Runner)                                            // SecurityHelper + ActionRunner

  /** The two exceptions that leave the invoker. */
  datatype InvocationError =
    | ActionInvocationException(message: string)
    | NullPointerException

  /** What an `ActionInvokeStatus` holds. */
  datatype StatusValue = StatusValue(throwable: Option<Throwable>, requiresUpdate: bool)

  /** The status object returned to the caller, filled in by setters. */
  class ActionInvokeStatus {
    var throwable: Option<Throwable>
    var requiresUpdate: bool

    constructor ()
      ensures throwable == None && !requiresUpdate
    {
      throwable := None;
      requiresUpdate := false;
    }

    function Contents(): StatusValue
      reads this
    {
      StatusValue(throwable, requiresUpdate)
    }

    method SetThrowable(t: Throwable)
      modifies this
      ensures throwable == Some(t) && requiresUpdate == old(requiresUpdate)
    {
      throwable := Some(t);
    }

    method SetRequiresUpdate(b: bool)
      modifies this
      ensures requiresUpdate == b && throwable == old(throwable)
    {
      requiresUpdate := b;
    }
  }

  /** Everything one invocation does: the timeline entries it appends, the
      parameter map it leaves behind, and how it ends. */
  datatype Effect = Effect(
    trace: seq<Entry>,
    params: Option<ParamEntries>,
    outcome: Result<StatusValue, InvocationError>)

  function Footprint(details: Option<ActionDetails>): set<object>
  {
    if details.Some? && details.value.parameters != null then {details.value.parameters} else {}
  }

  function Snapshot(details: Option<ActionDetails>): Option<Request>
    reads Footprint(details)
  {
    match details
    case None => None
    case Some(d) =>
      Some(Request(d.action, if d.parameters == null then None else Some(d.parameters.entries), d.userName))
  }

  /** The status a run leaves: a caught throwable is stored and the
      "requires update" flag keeps its initial `false`; otherwise no
      throwable and the runner's answer. */
  function StatusOf(outcome: RunOutcome): (s: StatusValue)
    ensures s.throwable.Some? <==> outcome.Threw?
    ensures outcome.Threw? ==> s == StatusValue(Some(outcome.throwable), false)
    ensures outcome.Completed? ==> s.requiresUpdate == outcome.requiresUpdate
  {
    match outcome
    case Completed(b) => StatusValue(None, b)
    case Threw(t) => StatusValue(Some(t), false)
  }

  /** The events published after the run: one FAILED event describing a
      caught throwable, nothing after a normal completion. */
  function FailureEvents(uid: string, params: ParamEntries, outcome: RunOutcome): seq<Entry>
  {
    match outcome
    case Completed(_) => []
    case Threw(t) => [Published(Event(uid, Some(params), Failed, Some(t.description)))]
  }

  /** The precondition of line 57, once the details themselves are present. */
  predicate Admissible(d: Request)
  {
    d.action.Some? && d.parameters.Some?
  }

  /** The `ActionRunner` of line 88: the sanitised map and the stream
      provider built while its marker was still in the map. */
  function RunnerFor(d: Request, env: Environment): ActionRunner
    requires Admissible(d)
  {
    ActionRunner(d.action.value, d.userName,
                 Sanitized(d.parameters.value, env.defaultLocale),
                 env.streamProviderOf(ProviderView(d.parameters.value, env.defaultLocale)))
  }

  /** The specification of one invocation. */
  function Invocation(details: Option<Request>, env: Environment): Effect
  {
    var uid := env.extractUid(details);
    match details
    case None =>
      // the failure branch dereferences the null details before publishing
      Effect([], None, Failure(NullPointerException))
    case Some(d) =>
      if !Admissible(d) then
        Effect([Published(Event(uid, d.parameters, Failed, Some(CantInvokeNullAction)))],
               d.parameters,
               Failure(ActionInvocationException(CantInvokeNullAction)))
      else
        var runner := RunnerFor(d, env);
        var identity := SelectIdentity(d.userName);
        var outcome := env.run(identity, runner);
        Effect([Published(Event(uid, d.parameters, InProgress, None)), RunnerCalled(identity, runner)]
                 + FailureEvents(uid, runner.params, outcome),
               Some(runner.params),
               Success(StatusOf(outcome)))
  }

  /** The parameter map a `Some` request carries after the invocation. */
  function ParamsAfter(details: Option<ActionDetails>): Option<ParamEntries>
    reads Footprint(details)
  {
    match Snapshot(details)
    case None => None
    case Some(d) => d.parameters
  }

  /** Lines 73-85: locale injection and removal of the control markers,
      with the stream provider built from the map while its marker is still
      present. */
  method SanitizeParams(params: ParamMap, env: Environment) returns (streamProvider: Option<StreamProvider>)
    modifies params
    ensures params.entries == Sanitized(old(params.entries), env.defaultLocale)
    ensures streamProvider == env.streamProviderOf(ProviderView(old(params.entries), env.defaultLocale))
  {
    // lines 73-76: default locale
    if LocaleMissing(params.entries) {
      params.Put(UserLocaleKey, env.defaultLocale);
    }
    // lines 79-81: identity markers
    params.Remove(ActionClassKey);
    params.Remove(ActionIdKey);
    params.Remove(ActionUserKey);
    // lines 83-85: stream provider, then its marker and the UI marker
    streamProvider := env.streamProviderOf(params.entries);
    params.Remove(StreamProviderKey);
    params.Remove(UiPassParamKey);
  }

  /** Lines 87-106: the run under the selected identity, with any throwable
      caught, published as FAILED and stored in a fresh status. */
  method RunAndCapture(timeline: Timeline, env: Environment, workItemUid: string, runner: ActionRunner)
    returns (status: ActionInvokeStatus)
    modifies timeline
    ensures fresh(status)
    ensures timeline.entries == old(timeline.entries)
      + [RunnerCalled(SelectIdentity(runner.actionUser), runner)]
      + FailureEvents(workItemUid, runner.params, env.run(SelectIdentity(runner.actionUser), runner))
    ensures status.Contents() == StatusOf(env.run(SelectIdentity(runner.actionUser), runner))
  {
    var actionUser := runner.actionUser;
    status := new ActionInvokeStatus();
    var requiresUpdate := false;
    var outcome: RunOutcome;
    if RunsAnonymously(actionUser) {
      outcome := timeline.RunAsAnonymous(env.run, runner);
    } else {
      outcome := timeline.RunAsUser(env.run, actionUser.value, runner);
    }
    match outcome {
      case Completed(b) =>
        requiresUpdate := b;
      case Threw(t) =>
        timeline.Publish(workItemUid, Some(runner.params), Failed, Some(t.description));
        status.SetThrowable(t);
    }
    status.SetRequiresUpdate(requiresUpdate);
  }

  method InvokeActionImpl(details: Option<ActionDetails>, env: Environment, timeline: Timeline)
    returns (r: Result<ActionInvokeStatus, InvocationError>)
    modifies timeline, Footprint(details)
    ensures timeline.entries == old(timeline.entries) + Invocation(old(Snapshot(details)), env).trace
    ensures ParamsAfter(details) == Invocation(old(Snapshot(details)), env).params
    ensures r.Failure? ==> Invocation(old(Snapshot(details)), env).outcome == Failure(r.error)
    ensures r.Success? ==> fresh(r.value)
    ensures r.Success? ==> Invocation(old(Snapshot(details)), env).outcome == Success(r.value.Contents())
  {
    var workItemUid := env.extractUid(Snapshot(details));
    if details.None? {
      return Failure(NullPointerException);
    }
    var d := details.value;
    if d.action.None? || d.parameters == null {
      var failureMessage := CantInvokeNullAction;
      timeline.Publish(workItemUid, if d.parameters == null then None else Some(d.parameters.entries),
                       Failed, Some(failureMessage));
      return Failure(ActionInvocationException(failureMessage));
    }
    var params := d.parameters;
    ghost var original := params.entries;
    assert Snapshot(details) == Some(Request(d.action, Some(original), d.userName));
    timeline.Publish(workItemUid, Some(params.entries), InProgress, None);
    ghost var started := timeline.entries;
    var actionBean := d.action.value;

    var streamProvider := SanitizeParams(params, env);
    var actionUser := d.userName;
    var actionBeanRunner := ActionRunner(actionBean, actionUser, params.entries, streamProvider);
    var status := RunAndCapture(timeline, env, workItemUid, actionBeanRunner);

    ghost var inProgress := Published(Event(workItemUid, Some(original), InProgress, None));
    ghost var called := RunnerCalled(SelectIdentity(actionUser), actionBeanRunner);
    ghost var tail := FailureEvents(workItemUid, params.entries, env.run(SelectIdentity(actionUser), actionBeanRunner));
    assert started == old(timeline.entries) + [inProgress];
    assert actionBeanRunner == RunnerFor(Request(d.action, Some(original), d.userName), env);
    assert Invocation(Some(Request(d.action, Some(original), d.userName)), env).trace == [inProgress, called] + tail;
    assert old(timeline.entries) + [inProgress] + [called] + tail
        == old(timeline.entries) + ([inProgress, called] + tail);
    return Success(status);
  }

  // Properties of one invocation.

  /** Null details: the source dereferences them while building the FAILED
      event, so a NullPointerException leaves the invoker and nothing is
      published or run. */
  lemma NullDetailsRaiseWithoutEffect(env: Environment)
    ensures Invocation(None, env).trace == []
    ensures Invocation(None, env).outcome == Failure(NullPointerException)
  {
  }

  /** A missing action or parameter map: exactly one FAILED event with the
      fixed message, the exception raised, no IN_PROGRESS event, no run. */
  lemma {:induction false} PreconditionGate(d: Request, env: Environment)
    requires !Admissible(d)
    ensures var e := Invocation(Some(d), env);
      && e.trace == [Published(Event(env.extractUid(Some(d)), d.parameters, Failed, Some(CantInvokeNullAction)))]
      && e.outcome == Failure(ActionInvocationException(CantInvokeNullAction))
      && e.params == d.parameters
      && PhaseCount(e.trace, Failed) == 1
      && PhaseCount(e.trace, InProgress) == 0
      && RunCount(e.trace) == 0
  {
  }

  /** With the preconditions met: exactly one IN_PROGRESS event, published
      with the caller's map, exactly one run, and every IN_PROGRESS event
      precedes every run. */
  lemma {:induction false} InProgressBeforeRun(d: Request, env: Environment)
    requires Admissible(d)
    ensures var t := Invocation(Some(d), env).trace;
      && |t| >= 2
      && t[0] == Published(Event(env.extractUid(Some(d)), d.parameters, InProgress, None))
      && t[1].RunnerCalled?
      && PhaseCount(t, InProgress) == 1
      && RunCount(t) == 1
      && forall i, j :: 0 <= i < |t| && 0 <= j < |t| && IsPhase(t[i], InProgress) && t[j].RunnerCalled? ==> i < j
  {
    var uid := env.extractUid(Some(d));
    var runner := RunnerFor(d, env);
    var identity := SelectIdentity(d.userName);
    var head := [Published(Event(uid, d.parameters, InProgress, None)), RunnerCalled(identity, runner)];
    var tail := FailureEvents(uid, runner.params, env.run(identity, runner));
    var t := Invocation(Some(d), env).trace;
    assert t == head + tail;
    CountsConcat(head, tail);
    assert head[1..][1..] == [];
    assert PhaseCount(tail, InProgress) == 0 && RunCount(tail) == 0 by {
      if tail != [] { assert tail[1..] == []; }
    }
  }

  /** The run receives the sanitised map, the stream provider built before
      its marker was removed, and the identity chosen from the acting user;
      the caller's map is left sanitised. */
  lemma RunnerReceivesSanitized(d: Request, env: Environment)
    requires Admissible(d)
    ensures var e := Invocation(Some(d), env);
      && |e.trace| >= 2
      && e.trace[1] == RunnerCalled(SelectIdentity(d.userName), RunnerFor(d, env))
      && e.trace[1].runner.params == Sanitized(d.parameters.value, env.defaultLocale)
      && e.trace[1].runner.streamProvider
           == env.streamProviderOf(ProviderView(d.parameters.value, env.defaultLocale))
      && e.params == Some(Sanitized(d.parameters.value, env.defaultLocale))
  {
  }

  /** A throwable from the run is not propagated: one FAILED event carrying
      its description ends the timeline, and the status holds it with
      "requires update" false. */
  lemma {:induction false} RunFailureCaptured(d: Request, env: Environment, t: Throwable)
    requires Admissible(d)
    requires env.run(SelectIdentity(d.userName), RunnerFor(d, env)) == Threw(t)
    ensures var e := Invocation(Some(d), env);
      && e.outcome == Success(StatusValue(Some(t), false))
      && |e.trace| == 3
      && e.trace[2] == Published(Event(env.extractUid(Some(d)), e.params, Failed, Some(t.description)))
      && PhaseCount(e.trace, Failed) == 1
      && PhaseCount(e.trace, Succeeded) == 0
  {
    var uid := env.extractUid(Some(d));
    var runner := RunnerFor(d, env);
    var head := [Published(Event(uid, d.parameters, InProgress, None)),
                 RunnerCalled(SelectIdentity(d.userName), runner)];
    var failed := [Published(Event(uid, Some(runner.params), Failed, Some(t.description)))];
    assert Invocation(Some(d), env).trace == head + failed;
    CountsConcat(head, failed);
    CountsConcat([head[0]], [head[1]]);
    assert head == [head[0]] + [head[1]];
    CountsSingle(head[0]);
    CountsSingle(head[1]);
    CountsSingle(failed[0]);
  }

  /** A normal run: no throwable, the runner's answer as "requires update",
      and no FAILED or SUCCEEDED event from the invoker. */
  lemma {:induction false} RunSuccessReported(d: Request, env: Environment, b: bool)
    requires Admissible(d)
    requires env.run(SelectIdentity(d.userName), RunnerFor(d, env)) == Completed(b)
    ensures var e := Invocation(Some(d), env);
      && e.outcome == Success(StatusValue(None, b))
      && |e.trace| == 2
      && PhaseCount(e.trace, Failed) == 0
      && PhaseCount(e.trace, Succeeded) == 0
  {
    var uid := env.extractUid(Some(d));
    var head := [Published(Event(uid, d.parameters, InProgress, None)),
                 RunnerCalled(SelectIdentity(d.userName), RunnerFor(d, env))];
    assert Invocation(Some(d), env).trace == head;
    CountsConcat([head[0]], [head[1]]);
    assert head == [head[0]] + [head[1]];
    CountsSingle(head[0]);
    CountsSingle(head[1]);
  }

  /** Whatever the input: at most one IN_PROGRESS event, at most one
      terminal event, never a SUCCEEDED event, and a run only after an
      IN_PROGRESS event. */
  lemma {:induction false} AtMostOneTerminalEvent(details: Option<Request>, env: Environment)
    ensures var t := Invocation(details, env).trace;
      && PhaseCount(t, InProgress) <= 1
      && PhaseCount(t, Failed) + PhaseCount(t, Succeeded) <= 1
      && PhaseCount(t, Succeeded) == 0
      && RunCount(t) == PhaseCount(t, InProgress)
  {
    match details
    case None =>
    case Some(d) =>
      if !Admissible(d) {
        PreconditionGate(d, env);
      } else {
        InProgressBeforeRun(d, env);
        match env.run(SelectIdentity(d.userName), RunnerFor(d, env))
        case Completed(b) => RunSuccessReported(d, env, b);
        case Threw(t) => RunFailureCaptured(d, env, t);
      }
  }
}
