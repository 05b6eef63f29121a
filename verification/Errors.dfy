/** The exceptions an update plan records on its items, told apart by the step that raised them. */
module Errors {

  datatype HookKind = PreStop | PreUpdate | PostUpdate | PreRollback | PostRollback

  datatype Error =
    | AgentFailed
    | InvalidConfig
    | Unhealthy
    | TagFailed
    | HookFailed(kind: HookKind)
    | CommandFailed(command: seq<string>)
}
