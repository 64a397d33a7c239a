/** The identity under which an action runs, and the abstract outcome of
    running it through the security helper. */
module Security {
  import opened Wrappers
  import opened Params

  /** The action bean to run: an opaque, already resolved unit of work. */
  datatype Action = Action(className: string)

  /** What `getStreamProvider` builds from the parameter map. */
  datatype StreamProvider = StreamProvider(descriptor: Value)

  /** The `ActionRunner` built at the call site: the action, the acting user,
      the (sanitised) parameters and the stream provider. */
  datatype ActionRunner = ActionRunner(
    action: Action,
    actionUser: Option<string>,
    params: ParamEntries,
    streamProvider: Option<StreamProvider>)

  datatype RunIdentity = Anonymous | AsUser(name: string)

  /** A `Throwable` caught from a run, known by its `toString()`. */
  datatype Throwable = Throwable(description: string)

  /** How a run ends: the action's "requires update" answer, or a throwable. */
  datatype RunOutcome = Completed(requiresUpdate: bool) | Threw(throwable: Throwable)

  /** `SecurityHelper.runAsAnonymous` / `runAsUser` wrapped around
      `ActionRunner.call`, seen only through its outcome. */
  type Runner = (RunIdentity, ActionRunner) -> RunOutcome

  /** The user name of a scheduler-originated session. */
  const SystemSession: string := "system session"

  /** The branch test of the run: no acting user (`StringUtil.isEmpty`, taken
      as null-or-empty) or the system session runs anonymously. */
  predicate RunsAnonymously(actionUser: Option<string>)
  {
    actionUser.None? || actionUser.value == "" || actionUser.value == SystemSession
  }

  /** The identity the action runs under. */
  function SelectIdentity(actionUser: Option<string>): (id: RunIdentity)
    ensures id == Anonymous <==> RunsAnonymously(actionUser)
    ensures id.AsUser? ==> actionUser == Some(id.name) && id.name != "" && id.name != SystemSession
  {
    if RunsAnonymously(actionUser) then Anonymous else AsUser(actionUser.value)
  }
}
