# Local action invocation (DefaultActionInvoker)

A Dafny model of `DefaultActionInvoker.invokeActionImpl` from the Pentaho
platform. The method runs one scheduled action locally. It does five things:

- it refuses a missing action or parameter map: it publishes a FAILED
  work-item event and raises `ActionInvocationException`;
- it publishes an IN_PROGRESS event;
- it sanitises the caller's parameter map in place: it injects the default
  locale and strips the five scheduler-infrastructure markers, building the
  stream provider before its marker is removed;
- it runs the action anonymously or as the acting user;
- it catches any throwable from the run, publishes it as FAILED, and returns
  an `ActionInvokeStatus`.

Modules:

- `Wrappers` (`wrappers.dfy`): `Option` and `Result`.
- `Params` (`params.dfy`): parameter values, the reserved keys, and the
  specification functions of sanitisation. It also holds `ParamMap`, the
  mutable map, with `Put` and `Remove`.
- `Security` (`security.dfy`): the action, the `ActionRunner` value, run
  identities, identity selection, and the abstract runner
  `(RunIdentity, ActionRunner) -> RunOutcome`.
- `Lifecycle` (`lifecycle.dfy`): lifecycle phases and events. The `Timeline`
  class records, in order, the published events and the calls made to the
  security runner.
- `Invoker` (`invoker.dfy`): `Invocation` is the specification of one
  invocation over a snapshot of the inputs. `InvokeActionImpl` is the
  step-by-step method. It is proved to append exactly `Invocation(...).trace`
  to the timeline, to leave the map as `Invocation(...).params`, and to return
  or raise `Invocation(...).outcome`. The lemmas state the properties of
  `Invocation`.

The collaborators the invoker calls but does not define are grouped in an
`Environment` value:

- `extractUid` stands for `ActionUtil.extractUid`;
- `defaultLocale` stands for `LocaleHelper.getLocale()`;
- `streamProviderOf` stands for `getStreamProvider`;
- `run` stands for `SecurityHelper.runAsAnonymous`/`runAsUser` around `ActionRunner`.

Line 57 tests `actionDetails == null` as if to report it. But line 59
dereferences `actionDetails` to build the FAILED event, so a
NullPointerException escapes and nothing is published
(`Invoker.NullDetailsRaiseWithoutEffect`).

## Model

| member | source | states |
|---|---|---|
| `Params.WithLocale` | extensions/src/main/java/org/pentaho/platform/plugin/action/DefaultActionInvoker.java:72-76 | after the locale step the locale key is present; it holds the default when the caller's was null or empty, else the map is unchanged; other keys keep their values |
| `Params.ProviderView` | extensions/src/main/java/org/pentaho/platform/plugin/action/DefaultActionInvoker.java:78-83 | the map the stream provider is built from no longer has the three identity markers, but still has the stream-provider marker with the caller's value, and every other key is present with its value exactly as after the locale step |
| `Params.Sanitized` | extensions/src/main/java/org/pentaho/platform/plugin/action/DefaultActionInvoker.java:72-85 | the action's map has no control marker, has the locale key (default if the caller's was blank), and every other key is present iff it was, with its original value |
| `Params.SanitizedIdempotent` | extensions/src/main/java/org/pentaho/platform/plugin/action/DefaultActionInvoker.java:72-85 | sanitising an already sanitised map changes nothing |
| `Params.ParamMap.Put` | extensions/src/main/java/org/pentaho/platform/plugin/action/DefaultActionInvoker.java:75 | `put` binds the key to the value in place |
| `Params.ParamMap.Remove` | extensions/src/main/java/org/pentaho/platform/plugin/action/DefaultActionInvoker.java:79-85 | `remove` unbinds the key in place; an absent key leaves the map unchanged |
| `Security.SelectIdentity` | extensions/src/main/java/org/pentaho/platform/plugin/action/DefaultActionInvoker.java:93-99 | the run is anonymous iff the acting user is null, empty or "system session"; otherwise it runs as exactly that user |
| `Lifecycle.Timeline.Publish` | extensions/src/main/java/org/pentaho/platform/plugin/action/DefaultActionInvoker.java:65 | publishing appends exactly one event, in program order, and never fails |
| `Lifecycle.Timeline.RunAsAnonymous` | extensions/src/main/java/org/pentaho/platform/plugin/action/DefaultActionInvoker.java:96 | the anonymous run is recorded once and yields the runner's outcome |
| `Lifecycle.Timeline.RunAsUser` | extensions/src/main/java/org/pentaho/platform/plugin/action/DefaultActionInvoker.java:98 | the named-user run is recorded once and yields the runner's outcome |
| `Invoker.ActionInvokeStatus.constructor` | extensions/src/main/java/org/pentaho/platform/plugin/action/DefaultActionInvoker.java:89 | a new status has no throwable and "requires update" false |
| `Invoker.ActionInvokeStatus.SetThrowable` | extensions/src/main/java/org/pentaho/platform/plugin/action/DefaultActionInvoker.java:102 | stores the caught throwable and leaves the flag alone |
| `Invoker.ActionInvokeStatus.SetRequiresUpdate` | extensions/src/main/java/org/pentaho/platform/plugin/action/DefaultActionInvoker.java:104 | sets the flag and leaves the throwable alone |
| `Invoker.StatusOf` | extensions/src/main/java/org/pentaho/platform/plugin/action/DefaultActionInvoker.java:91-104 | the status holds a throwable iff the run threw; then "requires update" is false, otherwise it is the runner's answer |
| `Invoker.SanitizeParams` | extensions/src/main/java/org/pentaho/platform/plugin/action/DefaultActionInvoker.java:72-85 | the map is changed in place to `Sanitized` of its old contents, and the stream provider is built from `ProviderView` of them |
| `Invoker.RunAndCapture` | extensions/src/main/java/org/pentaho/platform/plugin/action/DefaultActionInvoker.java:87-106 | one run under the selected identity, followed by a FAILED event only if it threw; a fresh status equal to `StatusOf` the outcome |
| `Invoker.InvokeActionImpl` | extensions/src/main/java/org/pentaho/platform/plugin/action/DefaultActionInvoker.java:54-107 | appends exactly `Invocation`'s trace to the timeline, leaves the map as `Invocation` says, and returns or raises `Invocation`'s outcome |
| `Invoker.NullDetailsRaiseWithoutEffect` | extensions/src/main/java/org/pentaho/platform/plugin/action/DefaultActionInvoker.java:55-59 | null details raise a NullPointerException before any event is published |
| `Invoker.PreconditionGate` | extensions/src/main/java/org/pentaho/platform/plugin/action/DefaultActionInvoker.java:57-62 | a null action or map gives exactly one FAILED event with the fixed message and `ActionInvocationException`; no IN_PROGRESS event, no run, and the map is untouched |
| `Invoker.InProgressBeforeRun` | extensions/src/main/java/org/pentaho/platform/plugin/action/DefaultActionInvoker.java:64-99 | with the preconditions met, exactly one IN_PROGRESS event, carrying the caller's map, and exactly one run, and every IN_PROGRESS event precedes every run |
| `Invoker.RunnerReceivesSanitized` | extensions/src/main/java/org/pentaho/platform/plugin/action/DefaultActionInvoker.java:83-98 | the runner gets the fully sanitised map, the stream provider built before its marker was removed, and the selected identity; the caller's map is left sanitised |
| `Invoker.RunFailureCaptured` | extensions/src/main/java/org/pentaho/platform/plugin/action/DefaultActionInvoker.java:100-104 | a throwing run is not propagated: one FAILED event with its description ends the trace, the status holds it and "requires update" is false |
| `Invoker.RunSuccessReported` | extensions/src/main/java/org/pentaho/platform/plugin/action/DefaultActionInvoker.java:91-106 | a completed run gives a status with no throwable and the runner's answer, and no FAILED or SUCCEEDED event |
| `Invoker.AtMostOneTerminalEvent` | extensions/src/main/java/org/pentaho/platform/plugin/action/DefaultActionInvoker.java:54-107 | for every input, at most one IN_PROGRESS event and at most one terminal event, never SUCCEEDED, and a run only when IN_PROGRESS was published |

## Left out

- `ActionUtil.extractUid`, `getStreamProvider` and `LocaleHelper.getLocale` are not part of this model. Their bodies are not visible, so they are fields of `Environment`: two arbitrary functions and a value. `getStreamProvider` receives the same live map at line 83; the model assumes it reads the map without changing it, and `Invoker.SanitizeParams` and `Invoker.RunnerReceivesSanitized` rest on that assumption.
- The calls between the IN_PROGRESS publish (line 65) and the `try` (line 92) are taken as never throwing. These are `toString()` on the locale value (73-74), `LocaleHelper.getLocale()` (75), `put`/`remove` on the map (75, 79-85), `getStreamProvider` (83) and `new ActionRunner` (88). In the source, such an exception would escape with IN_PROGRESS already published, no FAILED event and no run. The model has no such path. `Invoker.InProgressBeforeRun` ("exactly one run") and `Invoker.AtMostOneTerminalEvent` (as many runs as IN_PROGRESS events) rest on this assumption.
- `StringUtil.isEmpty` is taken as null-or-empty. `StringUtils.isEmpty` on the locale's `toString()` is taken as "is the empty string".
- The spellings of the reserved keys live in `ActionUtil` and `LocaleHelper`, which are not part of this model. The constants carry plausible spellings. The proofs rely only on the six keys being distinct.
- `Messages.getCantInvokeNullAction()` is localised text. The model uses one fixed constant.
- Debug logging (lines 68-70) is output only and is not modelled.
- `SecurityHelper` and `ActionRunner` internals are not modelled: thread-local security context switching and the action's own work. A run is an abstract function from identity and runner to an outcome. The model assumes the action does not change the parameter map it was given. The timeline holds only the events the invoker itself publishes: events the action publishes from inside `ActionRunner` (a SUCCEEDED, say) are not in it, so "never SUCCEEDED" in `Invoker.AtMostOneTerminalEvent` is about the invoker's own events.
- `WorkItemLifecyclePublisher` internals and asynchronous delivery are not modelled. Publishing appends to a log. An event records the map as it was at publish time, whereas Java hands the publisher a live reference to the map that is changed afterwards.
- The work-item identifier is computed up front from the details snapshot. When the details are null, the model does not say whether `extractUid` itself throws. Either way, the outcome is an exception with no event.
- Java's throwable hierarchy is collapsed into one `Throwable` value known by its `toString()`. Errors and exceptions are caught alike, as in the source.
