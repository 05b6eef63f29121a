/** The update plan and its items (backend/core/update_actions/update_actions_schema.py). */
module PlanSchema {
  import opened Wrappers
  import opened Errors
  import opened ContainerInfo
  import opened ContainerConfig

  datatype UpdatePlan = UpdatePlan(toUpdate: set<string>, affected: set<string>, order: seq<string>)

  datatype Verdict = NoResult | Updated | RolledBack | Failed

  /** An inspection during a wait, and how many seconds after its beginning it was made. */
  datatype Look = Look(info: Info, at: int)

  /** A finished wait for a container: the inspection it began with, its looks, the last of them, and its verdict. */
  datatype HealthCheck = HealthCheck(began: Info, looks: seq<Look>, ended: Info, healthy: bool)

  /** The mutable part of an item at one moment. */
  datatype ItemState = ItemState(
    container: Info,
    config: Option<Config>,
    commands: seq<seq<string>>,
    localImage: Option<Image>,
    remoteImage: Option<Image>,
    result: Verdict,
    errors: seq<Error>,
    judged: Option<HealthCheck>,
    closing: Option<HealthCheck>)
  {
    predicate CanUpdate() {
      Complete(localImage, remoteImage, config, errors)
    }
  }

  /** Everything an update needs is there and nothing went wrong. */
  predicate Complete(localImage: Option<Image>, remoteImage: Option<Image>, config: Option<Config>, errors: seq<Error>)
  {
    localImage.Some? && remoteImage.Some? && config.Some? && errors == []
  }

  /** State the executor keeps for one container; `origin` is the inspect result the run started from. */
  class UpdatePlanItem {
    const name: string
    const imageSpec: Option<string>
    const wasRunning: bool
    ghost const origin: Info
    var container: Info
    var config: Option<Config>
    var commands: seq<seq<string>>
    var localImage: Option<Image>
    var remoteImage: Option<Image>
    var result: Verdict
    var errors: seq<Error>
    /** The wait that decided about the container. */
    ghost var judged: Option<HealthCheck>
    /** The wait that ended a rollback. */
    ghost var closing: Option<HealthCheck>

    constructor (c: Info)
      ensures name == c.name && imageSpec == c.spec && wasRunning == c.running && origin == c && container == c
      ensures config == None && commands == [] && localImage == None && remoteImage == None
      ensures result == NoResult && errors == [] && judged == None && closing == None
    {
      name, imageSpec, wasRunning, origin, container := c.name, c.spec, c.running, c, c;
      config, commands, localImage, remoteImage := None, [], None, None;
      result, errors, judged, closing := NoResult, [], None, None;
    }

    ghost function State(): ItemState
      reads this
    {
      ItemState(container, config, commands, localImage, remoteImage, result, errors, judged, closing)
    }

    predicate CanUpdate()
      reads this
    {
      Complete(localImage, remoteImage, config, errors)
    }
  }
}
