/**
 Execution of an update plan (backend/core/update_actions/update_actions_executor.py), one container
 at a time. Exceptions are `Failure` values: a `try` body is a method of its own, left early by `:-`.
 */
module Executor {
  import opened Wrappers
  import opened Errors
  import opened Strings
  import opened ContainerInfo
  import opened NetKwargs
  import opened ContainerConfig
  import opened Docker
  import opened CallProtocol
  import opened HookScript
  import opened PlanSchema

  /** Where a container stands while the commands of a hook run, `clean` as long as none failed. */
  predicate HookMid(before: Stage, kind: HookKind, clean: bool, mid: Stage) {
    match kind
    case PreStop => before.Untouched? && mid == if clean then Untouched else RefusedAtStop(false)
    case PreUpdate => before.Willing? && mid == if clean then Willing else RefusedAtUpdate(false)
    case PostUpdate => before == Rebuilding(true) && (mid == before || mid.Accepting?)
    case PreRollback => !Undone(before).Illegal? && (mid == before || mid == Undone(before))
    case PostRollback => (before.Rebuilding? || before.Restoring?) && (mid == before || mid == Closing(before.drained))
  }

  predicate HookAllowed(before: Stage, kind: HookKind) {
    HookMid(before, kind, true, before)
  }

  /** Where a container stands after a hook. */
  function HookEnd(before: Stage, kind: HookKind, clean: bool): Stage {
    match kind
    case PreStop => if clean then Willing else RefusedAtStop(true)
    case PreUpdate => if clean then Armed else RefusedAtUpdate(true)
    case PostUpdate => Accepted
    case PreRollback => Undone(before)
    case PostRollback => AfterHooks(before, kind, clean)
  }

  lemma HookAdvances(before: Stage, kind: HookKind, clean: bool, mid: Stage, ok: bool)
    requires HookMid(before, kind, clean, mid)
    ensures HookMid(before, kind, clean && ok, AfterHook(mid, kind, ok))
    ensures AfterHooks(mid, kind, clean) == HookEnd(before, kind, clean)
  {
  }

  function FailedIn(calls: seq<Call>): nat {
    if calls == [] then 0
    else
      var last := calls[|calls| - 1];
      FailedIn(calls[..|calls| - 1]) + if last.Hook? && !last.ok then 1 else 0
  }

  /** The commands of a hook have run, in order, and every failure has its error. */
  ghost predicate RanSome(made: seq<Call>, kind: HookKind, commands: seq<string>, errors: seq<Error>) {
    && |made| == |commands|
    && (forall i :: 0 <= i < |made| ==> IsHook(made[i], kind) && made[i].command == commands[i])
    && |errors| == FailedIn(made)
  }

  lemma RanNext(made: seq<Call>, kind: HookKind, commands: seq<string>, errors: seq<Error>, command: string, ok: bool)
    requires RanSome(made, kind, commands, errors)
    ensures RanSome(made + [Hook(kind, command, ok)], kind, commands + [command],
                    if ok then errors else errors + [HookFailed(kind)])
  {
    var more := made + [Hook(kind, command, ok)];
    assert more[..|more| - 1] == made;
  }

  /** One disconnect for every attachment, in order. */
  predicate Detached(before: seq<Call>, after: seq<Call>, networks: Attachments) {
    && |after| == |before| + |networks| && before <= after
    && forall i :: |before| <= i < |after| ==> after[i].Detach? && after[i].network == networks[i - |before|].0
  }

  /** One disconnect for every attachment, and then a removal. */
  predicate RemovedLast(before: seq<Call>, after: seq<Call>, networks: Attachments) {
    after != [] && after[|after| - 1].Remove? && Detached(before, after[..|after| - 1], networks)
  }

  /** All commands of a hook have run, and every failure has its error. */
  ghost predicate RanHook(block: seq<Call>, kind: HookKind, commands: seq<string>, errors: seq<Error>) {
    IsBlock(block, kind, commands) && |errors| == FailedIn(block[..|block| - 1])
  }

  lemma {:induction false} FailedNone(calls: seq<Call>)
    ensures FailedIn(calls) == 0 <==> NoneFailed(calls, 0, |calls|)
  {
    if calls != [] {
      var front, last := calls[..|calls| - 1], calls[|calls| - 1];
      assert forall i :: 0 <= i < |front| ==> front[i] == calls[i];
      FailedNone(front);
    }
  }

  lemma HookRun(made: seq<Call>, kind: HookKind, commands: seq<string>, errors: seq<Error>)
    requires RanSome(made, kind, commands, errors)
    ensures RanHook(made + [HooksDone(kind, errors == [])], kind, commands, errors)
  {
    FailedNone(made);
    var block := made + [HooksDone(kind, errors == [])];
    assert block[..|block| - 1] == made;
    assert forall i :: 0 <= i < |made| ==> block[i] == made[i];
    assert NoneFailed(block, 0, |made|) == NoneFailed(made, 0, |made|);
  }

  /** Docker never reports an attachment twice, and no network is named like a shared network stack. */
  predicate DockerNetworks(networks: Attachments) {
    DistinctNetworks(networks) && forall i :: 0 <= i < |networks| ==> !("container:" <= networks[i].0)
  }

  /**
   Where a container ends whose connect commands were run. It is on its primary network; a secondary one
   is back unless its command left an error. That command is let through exactly for a connectable
   attachment, which then is back unless its connect call raised needlessly; no other one ever is. A
   container without attachments is where its network mode puts it.
   */
  ghost predicate NetworksRestored(isIp: string -> bool, origin: Info, nets: set<string>, errors: seq<Error>,
                                   faults: set<Fault>)
  {
    if origin.networks == [] then nets == CreatedNetworks(ModeNetworks(origin))
    else
      && MainKey(origin) in nets
      && (forall n :: n in nets ==> n == MainKey(origin) || Reconnectable(isIp, origin, n))
      && forall a :: a in origin.networks && a.0 != MainKey(origin) ==>
           && (a.0 in nets || CommandFailed(ConnectCommand(a.0, a.1, origin.name)) in errors)
           && (Connectable(isIp, a.0, a.1, origin.name) ==> a.0 in nets || Unplugged(origin.name, a.0) in faults)
  }

  lemma NetworksStay(isIp: string -> bool, origin: Info, nets: set<string>, errors: seq<Error>, errors': seq<Error>,
                     faults: set<Fault>, faults': set<Fault>)
    requires NetworksRestored(isIp, origin, nets, errors, faults) && errors <= errors' && faults <= faults'
    ensures NetworksRestored(isIp, origin, nets, errors', faults')
  {
  }

  ghost predicate MoreNetworks(isIp: string -> bool, c: Container, c': Container, origin: Info) {
    && c' == c.(networks := c'.networks)
    && c.networks <= c'.networks
    && forall n :: n in c'.networks ==> n in c.networks || Reconnectable(isIp, origin, n)
  }

  lemma MoreAndMore(isIp: string -> bool, a: Container, b: Container, c: Container, origin: Info)
    requires MoreNetworks(isIp, a, b, origin) && MoreNetworks(isIp, b, c, origin)
    ensures MoreNetworks(isIp, a, c, origin)
  {
  }

  /** What became of one connect command. */
  ghost predicate CommandDone(isIp: string -> bool, name: string, cmd: seq<string>, nets: set<string>,
                              errors: seq<Error>, faults: set<Fault>)
  {
    && (NetworkOf(cmd) in nets || CommandFailed(cmd) in errors)
    && (Allowlisted(isIp, cmd) ==> NetworkOf(cmd) in nets || Unplugged(name, NetworkOf(cmd)) in faults)
  }

  ghost predicate CommandsDone(isIp: string -> bool, name: string, commands: seq<seq<string>>, nets: set<string>,
                               errors: seq<Error>, faults: set<Fault>)
  {
    forall cmd :: cmd in commands ==> CommandDone(isIp, name, cmd, nets, errors, faults)
  }

  lemma CommandsNext(isIp: string -> bool, name: string, commands: seq<seq<string>>, cmd: seq<string>,
                     nets: set<string>, nets': set<string>, errors: seq<Error>, errors': seq<Error>, faults: set<Fault>,
                     faults': set<Fault>)
    requires CommandsDone(isIp, name, commands, nets, errors, faults)
    requires nets <= nets' && errors <= errors' && faults <= faults'
    requires CommandDone(isIp, name, cmd, nets', errors', faults')
    ensures CommandsDone(isIp, name, commands + [cmd], nets', errors', faults')
  {
  }

  /** The configuration and connect commands describe the container the run started from. */
  ghost predicate Captures(item: UpdatePlanItem, config: Config, commands: seq<seq<string>>) {
    && item.imageSpec.Some? && config.image == item.imageSpec.value && config.name == Some(item.name)
    && commands == ConnectCommands(item.origin)
    && config.net.networks == if item.origin.networks == [] then ModeNetworks(item.origin) else [MainKey(item.origin)]
  }

  /** The configuration is the whole of what the container had, as far as it differs from its image. */
  ghost predicate CapturedFrom(item: UpdatePlanItem, local: Option<Image>, oldApi: bool, config: Config,
                               commands: seq<seq<string>>)
  {
    && item.origin.spec.Some? && commands == ConnectCommands(item.origin)
    && config == Captured(item.origin, local, NetArgsOf(item.origin, oldApi))
  }

  /** What ends the polling: a healthy status, or running if the container had no healthcheck. */
  predicate Fine(began: Info, info: Info) {
    if began.health.Some? then info.health == Some("healthy") else info.running
  }

  /** What the look after the timeout takes for healthy: running, with a healthy, unknown or missing status. */
  predicate FineAtLast(info: Info) {
    info.running && info.health in {None, Some("healthy"), Some("unknown")}
  }

  /** At least five seconds between any two looks. */
  predicate Spaced(looks: seq<Look>) {
    forall i, j :: 0 <= i < j < |looks| ==> looks[i].at + 5 <= looks[j].at
  }

  /** Looks before the timeout that did not end the polling. */
  predicate Unfit(began: Info, looks: seq<Look>, timeout: int) {
    forall i :: 0 <= i < |looks| ==> looks[i].at < timeout && !Fine(began, looks[i].info)
  }

  /**
   How a wait went: it looked at the container at once and then at least five seconds apart, until it was
   fine or the timeout was over, when one more look decided. A container without an id is not waited for.
   */
  predicate Waited(h: HealthCheck, timeout: int) {
    if h.began.id == "" then !h.healthy && h.ended == h.began && h.looks == []
    else
      && h.looks != [] && h.looks[0].at == 0 && Spaced(h.looks)
      && var last := |h.looks| - 1;
         && h.ended == h.looks[last].info && Unfit(h.began, h.looks[..last], timeout)
         && if h.looks[last].at < timeout then h.healthy && Fine(h.began, h.ended)
            else h.healthy == FineAtLast(h.ended)
  }

  /** The next look of a wait, made `at` seconds after its beginning. */
  predicate Due(looks: seq<Look>, at: int) {
    if looks == [] then at == 0 else looks[0].at == 0 && looks[|looks| - 1].at + 5 <= at && Spaced(looks)
  }

  lemma LookDue(looks: seq<Look>, look: Look)
    requires Due(looks, look.at)
    ensures Spaced(looks + [look]) && (looks + [look])[0].at == 0
  {
    var more := looks + [look];
    assert forall i :: 0 <= i < |looks| ==> more[i] == looks[i];
  }

  lemma LookUnfit(began: Info, looks: seq<Look>, look: Look, timeout: int)
    requires Unfit(began, looks, timeout) && look.at < timeout && !Fine(began, look.info)
    ensures Unfit(began, looks + [look], timeout)
  {
  }

  /**
   No verdict is given too early: the container was looked at once and then at least five seconds apart, and
   every look but the last was before the timeout and found it neither healthy nor, without a healthcheck,
   running. It is unhealthy only if the timeout was over at the last look, and then not running or with a
   status other than healthy or unknown.
   */
  lemma VerdictAwaited(h: HealthCheck, timeout: int, i: nat)
    requires Waited(h, timeout) && h.began.id != "" && i < |h.looks|
    ensures h.looks[0].at == 0 && h.ended == h.looks[|h.looks| - 1].info
    ensures i < |h.looks| - 1 ==>
              && h.looks[i].at < timeout && h.looks[i].at + 5 <= h.looks[i + 1].at
              && (if h.began.health.Some? then h.looks[i].info.health != Some("healthy") else !h.looks[i].info.running)
    ensures i == |h.looks| - 1 && h.healthy ==>
              if h.looks[i].at < timeout
              then if h.began.health.Some? then h.ended.health == Some("healthy") else h.ended.running
              else h.ended.running && h.ended.health in {None, Some("healthy"), Some("unknown")}
    ensures i == |h.looks| - 1 && !h.healthy ==>
              && h.looks[i].at >= timeout
              && !(h.ended.running && h.ended.health in {None, Some("healthy"), Some("unknown")})
  {
    if i < |h.looks| - 1 {
      assert h.looks[..|h.looks| - 1][i] == h.looks[i];
    }
  }

  /**
   The container was looked at until the timeout was over, and no look before found it healthy or, without
   a healthcheck, running.
   */
  predicate Outwaited(h: HealthCheck, timeout: int) {
    && h.looks != [] && h.looks[|h.looks| - 1].at >= timeout
    && forall i :: 0 <= i < |h.looks| - 1 ==>
         if h.began.health.Some? then h.looks[i].info.health != Some("healthy") else !h.looks[i].info.running
  }

  lemma OutwaitedBy(h: HealthCheck, timeout: int)
    requires Waited(h, timeout) && !h.healthy && h.began.id != ""
    ensures Outwaited(h, timeout)
  {
    VerdictAwaited(h, timeout, |h.looks| - 1);
    forall i | 0 <= i < |h.looks| - 1
      ensures if h.began.health.Some? then h.looks[i].info.health != Some("healthy") else !h.looks[i].info.running
    {
      VerdictAwaited(h, timeout, i);
    }
  }

  /** The kept local image is the one the container was running on. */
  ghost predicate KeepsOriginal(item: UpdatePlanItem, local: Option<Image>) {
    local.Some? &&
    (item.origin.image.Some? && item.origin.image.value != "" ==> local.value.id == item.origin.image.value)
  }

  /** Where a rollback can end. */
  predicate UndoneAs(item: UpdatePlanItem, s: Stage) {
    Renewing(s, item.wasRunning) || s == Restored(item.wasRunning)
  }

  /** The stage of a container that was stopped, after pre_update hooks as well if it is to be updated. */
  function StoppedAs(inUpdate: bool): Stage {
    if inUpdate then Drained else Halted
  }

  /** A pre_stop hook refused the container, or for an update a pre_update hook. */
  predicate RefusedAs(inUpdate: bool, s: Stage) {
    s == RefusedAtStop(true) || (inUpdate && s == RefusedAtUpdate(true))
  }

  /** Where a container stands that was neither updated nor undone. */
  predicate HeldAs(ran: bool, inUpdate: bool, s: Stage) {
    if !ran then s == Untouched
    else RefusedAs(inUpdate, s) || s == StoppedAs(inUpdate) || s == Resumed(inUpdate)
  }

  /** Where an update can begin. */
  function StartedAs(item: UpdatePlanItem): Stage {
    if item.wasRunning then Drained else Untouched
  }

  predicate Imageless(c: Info) {
    c.image.None? || c.image.value == ""
  }

  /** Errors that can keep a container from being updated. */
  predicate Early(errors: seq<Error>) {
    forall e :: e in errors ==> e in {AgentFailed, InvalidConfig, Unhealthy, HookFailed(PreStop), HookFailed(PreUpdate)}
  }

  /** All commands of a hook have run before anything else. */
  ghost predicate RanFirst(before: seq<Call>, after: seq<Call>, kind: HookKind, commands: seq<string>) {
    exists block :: IsBlock(block, kind, commands) && before + block <= after
  }

  class PlanExecution {
    const host: Host
    const hooks: map<string, Hooks>
    const timeout: int
    const oldApi: bool

    constructor (host: Host, hooks: map<string, Hooks>, timeout: int, oldApi: bool)
      ensures this.host == host && this.hooks == hooks && this.timeout == timeout && this.oldApi == oldApi
    {
      this.host, this.hooks, this.timeout, this.oldApi := host, hooks, timeout, oldApi;
    }

    /** The last inspection ended a wait with a healthy verdict. */
    predicate FoundHealthy(judged: Option<HealthCheck>, container: Info) {
      judged.Some? && judged.value.healthy && judged.value.ended == container && Waited(judged.value, timeout)
    }

    predicate FoundUnhealthy(judged: Option<HealthCheck>) {
      judged.Some? && !judged.value.healthy && Waited(judged.value, timeout)
    }

    /** The wait after a rollback ended with the last inspection. */
    predicate Concluded(closing: Option<HealthCheck>, container: Info) {
      closing.Some? && closing.value.ended == container && Waited(closing.value, timeout)
    }

    function HooksOf(name: string): Hooks {
      if name in hooks then hooks[name] else map[]
    }

    /** The request for the item, or its merge with the pulled image, does not pass the validation. */
    ghost predicate Refusable(item: UpdatePlanItem, local: Option<Image>, remote: Option<Image>, config: Option<Config>)
    {
      || !Capturable(item.origin, local, oldApi, host.accepts)
      || (config.Some? && remote.Some? && !host.accepts(Merged(config.value, remote.value)))
    }

    /** Why an error other than a bad health verdict was recorded. */
    ghost predicate Reason(e: Error, item: UpdatePlanItem, local: Option<Image>, remote: Option<Image>,
                           config: Option<Config>, faults: set<Fault>)
    {
      match e
      case AgentFailed => Needless(item.name) in faults || Imageless(item.origin)
      case InvalidConfig => Refusable(item, local, remote, config)
      case HookFailed(kind) => BrokenHook(item.name, kind) in faults
      case CommandFailed(cmd) => Allowlisted(host.isIp, cmd) ==> Unplugged(item.name, NetworkOf(cmd)) in faults
      case TagFailed => Needless(item.name) in faults
      case Unhealthy => false
    }

    /** Every error has such a reason. */
    ghost predicate Reasoned(item: UpdatePlanItem, st: ItemState, faults: set<Fault>) {
      forall e :: e in st.errors ==> Reason(e, item, st.localImage, st.remoteImage, st.config, faults)
    }

    /** Every error has its reason. */
    ghost predicate Grounded(item: UpdatePlanItem, st: ItemState, faults: set<Fault>) {
      forall e :: e in st.errors ==>
        || Reason(e, item, st.localImage, st.remoteImage, st.config, faults)
        || (e == Unhealthy && FoundUnhealthy(st.judged))
    }

    /** What can go wrong when a container is stopped and started. */
    predicate Mishap(e: Error, name: string, judged: Option<HealthCheck>, faults: set<Fault>) {
      || (e == AgentFailed && Needless(name) in faults)
      || (e == HookFailed(PreStop) && BrokenHook(name, PreStop) in faults)
      || (e == HookFailed(PreUpdate) && BrokenHook(name, PreUpdate) in faults)
      || (e == Unhealthy && FoundUnhealthy(judged))
    }

    ghost predicate Mild(item: UpdatePlanItem, st: ItemState, faults: set<Fault>) {
      forall e :: e in st.errors ==> Mishap(e, item.name, st.judged, faults)
    }

    /** Why an update or a rollback is given up. */
    ghost predicate Blamed(item: UpdatePlanItem, e: Error)
      reads item`localImage, item`remoteImage, item`config, host`faults
    {
      || (e == AgentFailed && Needless(item.name) in host.faults)
      || (e == InvalidConfig && Refusable(item, item.localImage, item.remoteImage, item.config))
    }

    /** Where the second loop leaves one item; `before` is its container when its turn came. */
    ghost predicate Settled(item: UpdatePlanItem, st: ItemState, before: Option<Container>, m: Moment,
                            faults: set<Fault>)
    {
      && m.StageAt(item.name) != Illegal
      && (st.errors == [] ==> m.At(item.name).Some? && m.Runs(item.name) == item.wasRunning)
      && match st.result
         case NoResult =>
           && SameButRunning(before, m.At(item.name)) && InPlace(m.StageAt(item.name)) && Early(st.errors)
           && (item.wasRunning && !m.Runs(item.name) ==> Needless(item.name) in faults)
           && (st.errors == [] && item.wasRunning ==> st.container.running || FoundHealthy(st.judged, st.container))
         case Updated =>
           && st.config.Some? && st.remoteImage.Some? && m.At(item.name).Some?
           && m.StageAt(item.name) == (if item.wasRunning then Accepted else Rebuilding(false))
           && (item.wasRunning ==> FoundHealthy(st.judged, st.container))
           && var c := m.At(item.name).value;
              && c.config == Merged(st.config.value, st.remoteImage.value) && c.running == item.wasRunning
              && (if item.wasRunning then NetworksRestored(host.isIp, item.origin, c.networks, st.errors, faults)
                  else c.networks == CreatedNetworks(c.config.net.networks))
         case RolledBack =>
           && m.At(item.name).Some? && st.config == Some(m.At(item.name).value.config)
           && m.StageAt(item.name) == Restored(item.wasRunning)
           && (st.errors == [] ==> FoundUnhealthy(st.judged))
           && m.Runs(item.name) && Concluded(st.closing, st.container)
           && NetworksRestored(host.isIp, item.origin, m.At(item.name).value.networks, st.errors, faults)
           && DeservedBy(item, st, faults)
           && WarnedOf(item, st, m)
         case Failed =>
           && st.errors != [] && UndoneAs(item, m.StageAt(item.name)) && DeservedBy(item, st, faults)
           && WarnedOf(item, st, m)
    }

    /** Its pre_rollback hook came before a new container that was found unhealthy was taken down. */
    ghost predicate WarnedOf(item: UpdatePlanItem, st: ItemState, m: Moment) {
      FoundUnhealthy(st.judged) ==> Warned(m.CallsOf(item.name), CommandsOf(item.name, PreRollback))
    }

    /** An update is undone for an unhealthy verdict, a refused configuration, or a call that raised needlessly. */
    ghost predicate DeservedBy(item: UpdatePlanItem, st: ItemState, faults: set<Fault>) {
      FoundUnhealthy(st.judged) || InvalidConfig in st.errors || Needless(item.name) in faults
    }

    /** The reference of the item's spec has a tag. */
    ghost predicate Tagged(item: UpdatePlanItem)
      reads host`tags
    {
      item.imageSpec.Some? && RefOf(item) in host.tags
    }

    /** The reference the item's spec resolves to. */
    ghost function RefOf(item: UpdatePlanItem): string
      requires item.imageSpec.Some?
    {
      host.ref(item.imageSpec.value)
    }

    /**
     What the turn of one item does to the tags, and which image its container `c` takes: an update the
     one its spec is tagged with, a rollback with a successful re-tag the previous one.
     */
    ghost predicate TagsAfter(item: UpdatePlanItem, st: ItemState, c: Option<Container>, tags: map<string, string>,
                              tags': map<string, string>)
    {
      && tags.Keys <= tags'.Keys
      && (forall t :: t in tags && tags'[t] != tags[t] ==>
            item.imageSpec.Some? && RefOf(item) == t && st.result in {RolledBack, Failed})
      && (st.result != NoResult ==> item.imageSpec.Some? && RefOf(item) in tags && st.localImage.Some?)
      && (st.result == Updated ==> c.Some? && c.value.image == tags[RefOf(item)])
      && (st.result in {RolledBack, Failed} && TagFailed !in st.errors ==> tags'[RefOf(item)] == st.localImage.value.id)
      && (st.result == RolledBack && TagFailed !in st.errors ==> c.Some? && c.value.image == st.localImage.value.id)
    }

    ghost predicate Synced(item: UpdatePlanItem)
      reads item`errors, item`container, host`errored
    {
      && (item.errors != [] <==> item.name in host.errored)
      && item.container.name == item.name
    }

    /** The item is the one the scope is about, and its error list matches what the host's record shows. */
    ghost predicate InHand(item: UpdatePlanItem, s: Scope)
      reads item`errors, item`container, host`containers, host`errored, host`calls, host`stages, host`log
    {
      s.name == item.name && s.hooks == HooksOf(item.name) && host.Within(s) && Synced(item)
    }

    /** Moreover every error has its reason. */
    ghost predicate Working(item: UpdatePlanItem, s: Scope)
      reads item`errors, item`container, item`localImage, item`remoteImage, item`config
      reads host`containers, host`errored, host`calls, host`stages, host`log, host`faults
    {
      InHand(item, s) && Sourced(item)
    }

    ghost predicate Sourced(item: UpdatePlanItem)
      reads item`errors, item`localImage, item`remoteImage, item`config, host`faults
    {
      forall e :: e in item.errors ==> Reason(e, item, item.localImage, item.remoteImage, item.config, host.faults)
    }

    /** What a successful preparation leaves on an updatable item. */
    ghost predicate Prepared(item: UpdatePlanItem)
      reads item`config, item`commands, item`localImage, item`remoteImage
    {
      && HasCapture(item) && item.localImage.Some? && item.remoteImage.Some?
      && !Blank(item.name) && item.origin.name == item.name && DockerNetworks(item.origin.networks)
    }

    ghost predicate Ready(item: UpdatePlanItem)
      reads item`config, item`commands, item`localImage, item`remoteImage, host`tags
    {
      Prepared(item) && Tagged(item)
    }

    method Record(item: UpdatePlanItem, errors: seq<Error>, ghost s: Scope)
      requires Working(item, s)
      requires forall e :: e in errors ==> Reason(e, item, item.localImage, item.remoteImage, item.config, host.faults)
      modifies item`errors, host`errored
      ensures Working(item, s) && item.errors == old(item.errors) + errors
    {
      item.errors := item.errors + errors;
      if item.errors != [] {
        host.RecordError(s);
      }
    }

    function CommandsOf(name: string, kind: HookKind): seq<string> {
      Commands(HooksOf(name), kind)
    }

    /** One command of a hook; a failure is added to the errors. */
    method RunHook(name: string, kind: HookKind, command: string, errors: seq<Error>, ghost began: Stage,
                   ghost made: seq<Call>, ghost done: seq<string>, ghost s: Scope)
      returns (more: seq<Error>, ghost made': seq<Call>)
      requires s.name == name && host.Inside(s) && HookMid(began, kind, errors == [], host.StageNow(name))
      requires RanSome(made, kind, done, errors) && forall e :: e in errors ==> e == HookFailed(kind)
      modifies host`calls, host`stages, host`log, host`faults
      ensures host.Inside(s) && HookMid(began, kind, more == [], host.StageNow(name))
      ensures RanSome(made', kind, done + [command], more) && forall e :: e in more ==> e == HookFailed(kind)
      ensures |made'| == |made| + 1 && made == made'[..|made|]
      ensures host.CallsOf(name) == old(host.CallsOf(name)) + [made'[|made|]]
      ensures old(host.faults) <= host.faults && (errors != more ==> BrokenHook(name, kind) in host.faults)
    {
      ghost var stage := host.StageNow(name);
      var r := host.Exec(name, kind, command, s);
      more := if r.Failure? then errors + [r.error] else errors;
      made' := made + [Hook(kind, command, r.Success?)];
      HookAdvances(began, kind, errors == [], stage, r.Success?);
      RanNext(made, kind, done, errors, command, r.Success?);
    }

    /** The loop over the commands of a hook. */
    method RunAll(name: string, kind: HookKind, commands: seq<string>, ghost s: Scope)
      returns (errors: seq<Error>, ghost made: seq<Call>)
      requires s.name == name && host.Inside(s) && HookAllowed(host.StageNow(name), kind)
      modifies host`calls, host`stages, host`log, host`faults
      ensures host.Inside(s) && old(host.faults) <= host.faults
      ensures forall e :: e in errors ==> e == HookFailed(kind)
      ensures errors != [] ==> BrokenHook(name, kind) in host.faults
      ensures HookMid(old(host.StageNow(name)), kind, errors == [], host.StageNow(name))
      ensures host.CallsOf(name) == old(host.CallsOf(name)) + made && RanSome(made, kind, commands, errors)
    {
      errors, made := [], [];
      for i := 0 to |commands|
        invariant host.Inside(s) && host.CallsOf(name) == old(host.CallsOf(name)) + made
        invariant HookMid(old(host.StageNow(name)), kind, errors == [], host.StageNow(name))
        invariant RanSome(made, kind, commands[..i], errors) && forall e :: e in errors ==> e == HookFailed(kind)
        invariant old(host.faults) <= host.faults && (errors != [] ==> BrokenHook(name, kind) in host.faults)
      {
        assert commands[..i + 1] == commands[..i] + [commands[i]];
        errors, made := RunHook(name, kind, commands[i], errors, old(host.StageNow(name)), made, commands[..i], s);
      }
      assert commands[..|commands|] == commands;
    }

    /** Runs every command of the hook and collects the errors; never raises. */
    method RunHooks(name: string, kind: HookKind, ghost s: Scope)
      returns (errors: seq<Error>, ghost block: seq<Call>)
      requires s.name == name && s.hooks == HooksOf(name) && host.Within(s) && HookAllowed(host.StageNow(name), kind)
      modifies host`calls, host`stages, host`log, host`faults
      ensures host.Within(s) && old(host.faults) <= host.faults
      ensures forall e :: e in errors ==> e == HookFailed(kind)
      ensures errors != [] ==> BrokenHook(name, kind) in host.faults
      ensures host.StageNow(name) == HookEnd(old(host.StageNow(name)), kind, errors == [])
      ensures host.CallsOf(name) == old(host.CallsOf(name)) + block
      ensures RanHook(block, kind, CommandsOf(name, kind), errors)
    {
      ghost var made;
      errors, made := RunAll(name, kind, CommandsOf(name, kind), s);
      block := FinishHook(kind, errors, old(host.StageNow(name)), old(host.CallsOf(name)), made, s);
    }

    /** Marks the end of a hook whose commands have all run. */
    ghost method FinishHook(kind: HookKind, errors: seq<Error>, began: Stage, calls: seq<Call>, made: seq<Call>,
                            s: Scope)
      returns (block: seq<Call>)
      requires host.Inside(s) && Told(calls, s.hooks) && host.CallsOf(s.name) == calls + made
      requires RanSome(made, kind, Commands(s.hooks, kind), errors)
      requires HookMid(began, kind, errors == [], host.StageNow(s.name))
      modifies host`calls, host`stages, host`log
      ensures host.Within(s) && host.StageNow(s.name) == HookEnd(began, kind, errors == [])
      ensures host.CallsOf(s.name) == calls + block && RanHook(block, kind, Commands(s.hooks, kind), errors)
    {
      var clean := errors == [];
      HookAdvances(began, kind, clean, host.StageNow(s.name), true);
      HookRun(made, kind, Commands(s.hooks, kind), errors);
      block := made + [HooksDone(kind, clean)];
      ToldHook(calls, block, kind, s.hooks);
      Regrouped(calls, made, HooksDone(kind, clean));
      host.EndHooks(kind, clean, s);
    }

    /** The failures of a hook are recorded on the item. */
    method RecordHook(item: UpdatePlanItem, kind: HookKind, errors: seq<Error>, ghost s: Scope)
      requires Working(item, s) && forall e :: e in errors ==> e == HookFailed(kind)
      requires errors != [] ==> BrokenHook(item.name, kind) in host.faults
      modifies host`errored, item`errors
      ensures Working(item, s) && item.errors == old(item.errors) + errors
      ensures TagFailed !in errors && host.CallsOf(item.name) == old(host.CallsOf(item.name))
      ensures host.StageNow(item.name) == old(host.StageNow(item.name))
    {
      Record(item, errors, s);
    }

    /** Runs a hook whose failures are recorded on the item and otherwise ignored. */
    method ReportHooks(item: UpdatePlanItem, kind: HookKind, ghost s: Scope)
      returns (ghost errors: seq<Error>, ghost block: seq<Call>)
      requires Working(item, s) && kind in {PostUpdate, PreRollback, PostRollback}
      requires HookAllowed(host.StageNow(item.name), kind)
      modifies host`calls, host`stages, host`log, host`errored, host`faults, item`errors
      ensures Working(item, s) && item.errors == old(item.errors) + errors && old(host.faults) <= host.faults
      ensures TagFailed !in errors
      ensures host.StageNow(item.name) == HookEnd(old(host.StageNow(item.name)), kind, true)
      ensures host.CallsOf(item.name) == old(host.CallsOf(item.name)) + block
      ensures RanHook(block, kind, CommandsOf(item.name, kind), errors)
    {
      var found;
      found, block := RunHooks(item.name, kind, s);
      RecordHook(item, kind, found, s);
      errors := found;
    }

    /** One disconnect for every attachment; failures are swallowed. */
    method DisconnectAll(info: Info, ghost s: Scope)
      requires info.name == s.name && host.Within(s) && !AfterClearing(host.StageNow(s.name)).Illegal?
      modifies host`containers, host`calls, host`stages, host`log
      ensures host.Within(s)
      ensures host.StageNow(s.name) == old(host.StageNow(s.name)) ||
              host.StageNow(s.name) == AfterClearing(old(host.StageNow(s.name)))
      ensures host.At(s.name).Some? <==> old(host.At(s.name)).Some?
      ensures host.At(s.name).Some? ==> host.At(s.name).value.running == old(host.At(s.name)).value.running
      ensures Detached(old(host.CallsOf(s.name)), host.CallsOf(s.name), info.networks)
    {
      for i := 0 to |info.networks|
        invariant host.Within(s)
        invariant Detached(old(host.CallsOf(s.name)), host.CallsOf(s.name), info.networks[..i])
        invariant host.StageNow(s.name) == old(host.StageNow(s.name)) ||
                  host.StageNow(s.name) == AfterClearing(old(host.StageNow(s.name)))
        invariant host.At(s.name).Some? <==> old(host.At(s.name)).Some?
        invariant host.At(s.name).Some? ==> host.At(s.name).value.running == old(host.At(s.name)).value.running
      {
        var r := host.Disconnect(info.networks[i].0, info.name, s);
      }
      assert info.networks[..|info.networks|] == info.networks;
    }

    /** The item's container as docker shows it now. */
    method Refresh(item: UpdatePlanItem, ghost s: Scope) returns (r: Result<(), Error>)
      requires Working(item, s)
      modifies item`container, host`faults
      ensures Working(item, s) && old(host.faults) <= host.faults
      ensures r.Success? ==> host.At(item.name).Some? && item.container.running == host.Now().Runs(item.name)
      ensures r.Failure? ==> r.error == AgentFailed && (Needless(item.name) in host.faults || host.At(item.name).None?)
    {
      var info :- host.Inspect(item.name);
      item.container := info;
      return Success(());
    }

    /**
     Polls until the container is healthy or the timeout has passed, at least five seconds apart.
     Without a healthcheck a running container is healthy; the last look also takes an unknown status.
     */
    method WaitForHealthy(container: Info) returns (r: Result<(bool, Info), Error>, ghost looks: seq<Look>)
      modifies host`faults
      ensures r.Success? ==>
                && r.value.1.name == container.name
                && Waited(HealthCheck(container, looks, r.value.1, r.value.0), timeout)
      ensures r.Failure? ==> r.error == AgentFailed
      ensures r.Failure? ==> Needless(container.name) in host.faults || container.name !in host.containers
      ensures old(host.faults) <= host.faults
    {
      looks := [];
      if container.id == "" {
        return Success((false, container)), looks;
      }
      var elapsed := 0;
      while elapsed < timeout
        invariant old(host.faults) <= host.faults
        invariant Due(looks, elapsed) && Unfit(container, looks, timeout)
        decreases timeout - elapsed
      {
        var seen := host.Inspect(container.name);
        if seen.Failure? {
          return Failure(seen.error), looks;
        }
        var info := seen.value;
        ghost var polls, look := looks, Look(info, elapsed);
        LookDue(polls, look);
        looks := polls + [look];
        assert looks[..|looks| - 1] == polls;
        if container.health.Some? {
          if info.health == Some("healthy") {
            return Success((true, info)), looks;
          }
        } else if info.running {
          return Success((true, info)), looks;
        }
        LookUnfit(container, polls, look, timeout);
        var overhead :| 0 <= overhead;
        elapsed := elapsed + 5 + overhead;
      }
      var seen := host.Inspect(container.name);
      if seen.Failure? {
        return Failure(seen.error), looks;
      }
      ghost var polls := looks;
      LookDue(polls, Look(seen.value, elapsed));
      looks := polls + [Look(seen.value, elapsed)];
      assert looks[..|looks| - 1] == polls;
      var healthy := seen.value.running && seen.value.health in {None, Some("healthy"), Some("unknown")};
      return Success((healthy, seen.value)), looks;
    }

    // ---------- Preparation ----------

    method InspectLocal(item: UpdatePlanItem) returns (r: Result<Image, Error>)
      requires item.container == item.origin
      modifies host`faults
      ensures r.Success? && !Imageless(item.origin) ==> r.value.id == item.origin.image.value
      ensures r.Failure? ==> r.error == AgentFailed && (Needless(item.name) in host.faults || Imageless(item.origin))
      ensures old(host.faults) <= host.faults
    {
      if item.container.image.Some? && item.container.image.value != "" {
        r := host.InspectImageById(item.container.image.value, item.name);
      } else if item.imageSpec.Some? && item.imageSpec.value != "" {
        r := host.InspectImageBySpec(item.imageSpec.value, item.name);
      } else {
        r := Failure(AgentFailed);
      }
    }

    /** The item's local image, or the error of its inspection. */
    method KeepLocal(item: UpdatePlanItem, ghost s: Scope)
      requires Working(item, s) && item.errors == [] && item.container == item.origin && item.localImage == None
      modifies host`errored, host`faults, item`localImage, item`errors
      ensures Working(item, s) && Early(item.errors) && old(host.faults) <= host.faults
      ensures item.localImage.Some? ==> KeepsOriginal(item, item.localImage)
      ensures item.errors == [] <==> item.localImage.Some?
    {
      var local := InspectLocal(item);
      if local.Success? {
        item.localImage := Some(local.value);
      } else {
        Record(item, [local.error], s);
      }
    }

    /** What was kept of the item's container describes it. */
    ghost predicate Equipped(item: UpdatePlanItem, st: ItemState) {
      && (st.localImage.Some? ==> KeepsOriginal(item, st.localImage))
      && (st.config.Some? ==>
            && Captures(item, st.config.value, st.commands)
            && CapturedFrom(item, st.localImage, oldApi, st.config.value, st.commands))
    }

    method PullRemote(item: UpdatePlanItem, ghost s: Scope)
      requires Working(item, s) && item.remoteImage == None && item.imageSpec == item.origin.spec && Early(item.errors)
      modifies host`tags, host`errored, host`faults, item`remoteImage, item`errors
      ensures Working(item, s) && old(item.errors) <= item.errors && Early(item.errors)
      ensures old(host.faults) <= host.faults
      ensures PulledFor(item, old(host.tags))
      ensures item.remoteImage.None? ==> item.errors != []
    {
      if item.imageSpec.Some? {
        var pulled := host.Pull(item.imageSpec.value, item.name);
        if pulled.Success? {
          item.remoteImage := Some(pulled.value);
        } else {
          Record(item, [pulled.error], s);
        }
      } else {
        Record(item, [InvalidConfig], s);
      }
    }

    /** A pull tags the item's reference with the image it brings, and moves no other tag. */
    ghost predicate PulledFor(item: UpdatePlanItem, tags: map<string, string>)
      reads item`remoteImage, host`tags
    {
      && tags.Keys <= host.tags.Keys
      && (forall t :: t in tags && !(item.imageSpec.Some? && RefOf(item) == t) ==> host.tags[t] == tags[t])
      && (item.remoteImage.Some? ==>
            item.imageSpec.Some? && RefOf(item) in host.tags && host.tags[RefOf(item)] == item.remoteImage.value.id)
    }

    /** Local and pulled image of an updatable item. */
    method Fetch(item: UpdatePlanItem, ghost s: Scope)
      requires Working(item, s) && item.errors == [] && item.container == item.origin
      requires item.localImage == None && item.remoteImage == None && item.imageSpec == item.origin.spec
      modifies host`tags, host`errored, host`faults, item`localImage, item`remoteImage, item`errors
      ensures Working(item, s) && Early(item.errors) && old(host.faults) <= host.faults
      ensures PulledFor(item, old(host.tags))
      ensures item.localImage.Some? ==> KeepsOriginal(item, item.localImage)
      ensures item.errors == [] ==> item.localImage.Some? && item.remoteImage.Some?
    {
      KeepLocal(item, s);
      ghost var local := item.localImage;
      PullRemote(item, s);
      assert item.localImage == local;
    }

    /** Local image, pull, and captured configuration of an updatable item; every failure is recorded. */
    method Prepare(item: UpdatePlanItem, ghost s: Scope)
      requires Working(item, s) && item.errors == [] && item.container == item.origin
      requires item.localImage == None && item.remoteImage == None && item.config == None
      requires item.imageSpec == item.origin.spec && item.origin.name == item.name && !Blank(item.name)
      requires DockerNetworks(item.origin.networks)
      modifies host`tags, host`errored, host`faults
      modifies item`config, item`commands, item`localImage, item`remoteImage, item`errors
      ensures Working(item, s) && Early(item.errors) && old(host.faults) <= host.faults
      ensures item.errors == [] <==> item.CanUpdate()
      ensures Equipped(item, item.State())
      ensures PulledFor(item, old(host.tags))
    {
      Fetch(item, s);
      Capture(item, s);
    }

    /** The container's configuration and its connect commands, as they were when the run began. */
    method Capture(item: UpdatePlanItem, ghost s: Scope)
      requires Working(item, s) && item.container == item.origin && item.config == None && Early(item.errors)
      requires item.imageSpec == item.origin.spec && item.origin.name == item.name && !Blank(item.name)
      requires DistinctNetworks(item.origin.networks)
      modifies host`errored, item`config, item`commands, item`errors
      ensures Working(item, s) && old(item.errors) <= item.errors && Early(item.errors)
      ensures item.errors == [] ==> item.config.Some?
      ensures item.config.Some? ==>
                HasCapture(item) && CapturedFrom(item, item.localImage, oldApi, item.config.value, item.commands)
    {
      var captured := GetContainerConfig(item.container, item.localImage, oldApi, host.accepts);
      if captured.Success? {
        item.config, item.commands := Some(captured.value.0), captured.value.1;
      } else {
        Record(item, [captured.error], s);
      }
    }

    ghost predicate HasCapture(item: UpdatePlanItem)
      reads item`config, item`commands
    {
      item.config.Some? && Captures(item, item.config.value, item.commands)
    }

    // ---------- Stop phase ----------

    method StopAndInspect(item: UpdatePlanItem, ghost s: Scope) returns (r: Result<(), Error>)
      requires Working(item, s)
      modifies host`containers, host`calls, host`stages, host`log, host`faults, item`container
      ensures Working(item, s) && host.StageNow(item.name) == AfterStop(old(host.StageNow(item.name)))
      ensures old(host.CallsOf(item.name)) <= host.CallsOf(item.name)
      ensures host.At(item.name) == old(host.At(item.name)) ||
              (old(host.At(item.name)).Some? &&
               host.At(item.name) == Some(old(host.At(item.name)).value.(running := false)))
      ensures r.Success? ==> host.At(item.name).Some? && !host.Now().Runs(item.name)
      ensures r.Failure? ==>
                r.error == AgentFailed && (Needless(item.name) in host.faults || old(host.At(item.name)).None?)
      ensures old(host.faults) <= host.faults
    {
      var _ :- host.Stop(item.name, s);
      r := Refresh(item, s);
    }

    /** The hooks before a stop; those of an update only after error-free ones of the stop. */
    method RunStopHooks(name: string, inUpdate: bool, ghost s: Scope) returns (errors: seq<Error>)
      requires s.name == name && s.hooks == HooksOf(name) && host.Within(s) && host.StageNow(name) == Untouched
      modifies host`calls, host`stages, host`log, host`faults
      ensures host.Within(s) && old(host.faults) <= host.faults
      ensures errors == [] ==> host.StageNow(name) == if inUpdate then Armed else Willing
      ensures errors != [] ==> RefusedAs(inUpdate, host.StageNow(name))
      ensures forall e :: e in errors ==>
                || (e == HookFailed(PreStop) && BrokenHook(name, PreStop) in host.faults)
                || (e == HookFailed(PreUpdate) && BrokenHook(name, PreUpdate) in host.faults)
    {
      ghost var block;
      errors, block := RunHooks(name, PreStop, s);
      if errors == [] && inUpdate {
        errors, block := RunHooks(name, PreUpdate, s);
      }
    }

    /** Hooks and stop of a container that runs. */
    method StopRunning(item: UpdatePlanItem, inUpdate: bool, ghost s: Scope)
      requires Working(item, s) && host.StageNow(item.name) == Untouched && Early(item.errors)
      requires host.Now().Runs(item.name)
      modifies host`containers, host`calls, host`stages, host`log, host`errored, host`faults
      modifies item`container, item`errors
      ensures Working(item, s) && old(item.errors) <= item.errors && Early(item.errors)
      ensures SameButRunning(old(host.At(item.name)), host.At(item.name))
      ensures !host.Now().Runs(item.name) || item.errors != []
      ensures || host.StageNow(item.name) == StoppedAs(inUpdate)
              || (RefusedAs(inUpdate, host.StageNow(item.name)) && item.errors != []
                  && host.At(item.name) == old(host.At(item.name)))
      ensures old(host.faults) <= host.faults
      ensures forall e :: e in item.errors ==> e in old(item.errors) || Mishap(e, item.name, item.judged, host.faults)
    {
      var hookErrors := RunStopHooks(item.name, inUpdate, s);
      if hookErrors != [] {
        Record(item, hookErrors, s);
      } else {
        StopWilling(item, s);
      }
    }

    method StopWilling(item: UpdatePlanItem, ghost s: Scope)
      requires Working(item, s) && Early(item.errors) && host.Now().Runs(item.name)
      modifies host`containers, host`calls, host`stages, host`log, host`errored, host`faults
      modifies item`container, item`errors
      ensures Working(item, s) && old(item.errors) <= item.errors && Early(item.errors)
      ensures SameButRunning(old(host.At(item.name)), host.At(item.name))
      ensures !host.Now().Runs(item.name) || item.errors != []
      ensures host.StageNow(item.name) == AfterStop(old(host.StageNow(item.name)))
      ensures old(host.faults) <= host.faults
      ensures forall e :: e in item.errors ==> e in old(item.errors) || Mishap(e, item.name, item.judged, host.faults)
    {
      var r := StopAndInspect(item, s);
      if r.Failure? {
        Record(item, [r.error], s);
      }
    }

    /** The body of the stop loop for one container. */
    method StopItem(item: UpdatePlanItem, inUpdate: bool, ghost s: Scope)
      requires Working(item, s) && host.StageNow(item.name) == Untouched && Early(item.errors)
      requires item.wasRunning ==> host.Now().Runs(item.name)
      modifies host`containers, host`calls, host`stages, host`log, host`errored, host`faults
      modifies item`container, item`errors
      ensures Working(item, s) && old(item.errors) <= item.errors && Early(item.errors)
      ensures SameButRunning(old(host.At(item.name)), host.At(item.name))
      ensures !item.wasRunning ==>
                && host.At(item.name) == old(host.At(item.name)) && host.StageNow(item.name) == Untouched
                && item.errors == old(item.errors)
      ensures item.wasRunning ==> !host.Now().Runs(item.name) || item.errors != []
      ensures item.wasRunning ==>
                || host.StageNow(item.name) == StoppedAs(inUpdate)
                || (RefusedAs(inUpdate, host.StageNow(item.name)) && item.errors != []
                  && host.At(item.name) == old(host.At(item.name)))
      ensures old(host.faults) <= host.faults
      ensures forall e :: e in item.errors ==> e in old(item.errors) || Mishap(e, item.name, item.judged, host.faults)
    {
      if item.wasRunning {
        StopRunning(item, inUpdate, s);
      }
    }

    // ---------- Start and update phase ----------

    /** Why a container was not started, or not found healthy. */
    ghost predicate NotStarted(item: UpdatePlanItem, e: Error)
      reads item`judged, host`containers, host`errored, host`calls, host`stages, host`faults
    {
      || (e == AgentFailed && Needless(item.name) in host.faults)
      || (e == Unhealthy && FoundUnhealthy(item.judged) && host.Now().Runs(item.name))
    }

    /** Waits for a container that was started and keeps the last inspection with its verdict. */
    method AwaitStarted(item: UpdatePlanItem, ghost s: Scope) returns (r: Result<(), Error>)
      requires Working(item, s) && host.Now().Runs(item.name)
      modifies host`faults, item`container, item`judged
      ensures Working(item, s) && old(host.faults) <= host.faults
      ensures r.Success? ==> FoundHealthy(item.judged, item.container)
      ensures r.Failure? ==> NotStarted(item, r.error)
    {
      var verdict, looks := WaitForHealthy(item.container);
      var look :- verdict;
      var (healthy, seen) := look;
      item.judged := Some(HealthCheck(item.container, looks, seen, healthy));
      item.container := seen;
      if healthy {
        return Success(());
      }
      return Failure(Unhealthy);
    }

    method StartAndWait(item: UpdatePlanItem, ghost s: Scope) returns (r: Result<(), Error>)
      requires Working(item, s) && host.StageNow(item.name) in {Halted, Drained} && host.At(item.name).Some?
      modifies host`containers, host`calls, host`stages, host`log, host`faults, item`container, item`judged
      ensures Working(item, s) && host.StageNow(item.name) == AfterStart(old(host.StageNow(item.name)))
      ensures SameButRunning(old(host.At(item.name)), host.At(item.name))
      ensures old(host.Now().Runs(item.name)) ==> host.Now().Runs(item.name)
      ensures r.Success? ==> host.Now().Runs(item.name) && FoundHealthy(item.judged, item.container)
      ensures r.Failure? ==> NotStarted(item, r.error)
      ensures old(host.faults) <= host.faults
    {
      var _ :- host.Start(item.name, s);
      r := AwaitStarted(item, s);
    }

    method AttemptStartWithHealth(item: UpdatePlanItem, ghost s: Scope) returns (r: Result<(), Error>)
      requires Working(item, s) && host.At(item.name).Some?
      requires item.wasRunning ==>
                 || host.StageNow(item.name) in {Halted, Drained}
                 || (Refused(host.StageNow(item.name)) && host.Now().Runs(item.name))
      modifies host`containers, host`calls, host`stages, host`log, host`faults, item`container, item`judged
      ensures Working(item, s)
      ensures SameButRunning(old(host.At(item.name)), host.At(item.name))
      ensures old(host.Now().Runs(item.name)) ==> host.Now().Runs(item.name)
      ensures host.StageNow(item.name) == old(host.StageNow(item.name)) ||
              (old(host.StageNow(item.name)) in {Halted, Drained} &&
               host.StageNow(item.name) == AfterStart(old(host.StageNow(item.name))))
      ensures !item.wasRunning ==> r.Success? && host.At(item.name) == old(host.At(item.name))
      ensures item.wasRunning && r.Success? ==>
                host.Now().Runs(item.name) && (item.container.running || FoundHealthy(item.judged, item.container))
      ensures r.Failure? ==> NotStarted(item, r.error)
      ensures old(host.faults) <= host.faults
    {
      if !item.wasRunning {
        return Success(());
      }
      var _ :- Refresh(item, s);
      if item.container.running {
        return Success(());
      }
      r := StartAndWait(item, s);
    }

    method RunOneCommand(item: UpdatePlanItem, cmd: seq<string>, ghost s: Scope)
      requires Working(item, s) && Renewing(host.StageNow(item.name), item.wasRunning)
      requires ConnectsOneOf(item.origin, cmd) && item.origin.name == item.name
      requires host.At(item.name).Some?
      modifies host`containers, host`calls, host`stages, host`log, host`errored, host`faults, item`errors
      ensures Working(item, s) && old(item.errors) <= item.errors && old(host.faults) <= host.faults
      ensures host.StageNow(item.name) == old(host.StageNow(item.name))
      ensures host.At(item.name).Some?
      ensures CommandDone(host.isIp, item.name, cmd, host.At(item.name).value.networks, item.errors, host.faults)
      ensures MoreNetworks(host.isIp, old(host.At(item.name)).value, host.At(item.name).value, item.origin)
      ensures !Allowlisted(host.isIp, cmd) ==> host.At(item.name) == old(host.At(item.name))
      ensures TagFailed in item.errors ==> TagFailed in old(item.errors)
    {
      GeneratedCommand(host.isIp, item.origin, cmd);
      var r := host.RunCommand(cmd, s);
      if r.Failure? {
        Record(item, [r.error], s);
      }
    }

    method RunCommands(item: UpdatePlanItem, ghost s: Scope)
      requires Working(item, s) && Renewing(host.StageNow(item.name), item.wasRunning)
      requires (forall cmd :: cmd in item.commands ==> ConnectsOneOf(item.origin, cmd)) && item.origin.name == item.name
      requires host.At(item.name).Some?
      modifies host`containers, host`calls, host`stages, host`log, host`errored, host`faults, item`errors
      ensures Working(item, s) && old(item.errors) <= item.errors && old(host.faults) <= host.faults
      ensures host.StageNow(item.name) == old(host.StageNow(item.name))
      ensures host.At(item.name).Some?
      ensures MoreNetworks(host.isIp, old(host.At(item.name)).value, host.At(item.name).value, item.origin)
      ensures CommandsDone(host.isIp, item.name, item.commands, host.At(item.name).value.networks, item.errors,
                           host.faults)
      ensures TagFailed in item.errors ==> TagFailed in old(item.errors)
    {
      var commands := item.commands;
      for i := 0 to |commands|
        invariant Working(item, s) && old(item.errors) <= item.errors && old(host.faults) <= host.faults
        invariant host.StageNow(item.name) == old(host.StageNow(item.name))
        invariant host.At(item.name).Some?
        invariant MoreNetworks(host.isIp, old(host.At(item.name)).value, host.At(item.name).value, item.origin)
        invariant CommandsDone(host.isIp, item.name, commands[..i], host.At(item.name).value.networks, item.errors,
                               host.faults)
        invariant TagFailed in item.errors ==> TagFailed in old(item.errors)
      {
        ghost var c, errors, faults := host.At(item.name).value, item.errors, host.faults;
        assert commands[..i + 1] == commands[..i] + [commands[i]];
        RunOneCommand(item, commands[i], s);
        MoreAndMore(host.isIp, old(host.At(item.name)).value, c, host.At(item.name).value, item.origin);
        CommandsNext(host.isIp, item.name, commands[..i], commands[i], c.networks, host.At(item.name).value.networks,
                     errors, item.errors, faults, host.faults);
      }
      assert commands[..|commands|] == commands;
    }

    method DetachAndRemove(item: UpdatePlanItem, ghost s: Scope) returns (r: Result<(), Error>)
      requires Working(item, s) && !AfterClearing(host.StageNow(item.name)).Illegal?
      modifies host`containers, host`calls, host`stages, host`log, host`faults
      ensures Working(item, s)
      ensures host.StageNow(item.name) == old(host.StageNow(item.name)) ||
              host.StageNow(item.name) == AfterClearing(old(host.StageNow(item.name)))
      ensures r.Success? ==>
                host.At(item.name) == None && host.StageNow(item.name) == AfterClearing(old(host.StageNow(item.name)))
      ensures RemovedLast(old(host.CallsOf(item.name)), host.CallsOf(item.name), item.container.networks)
      ensures r.Failure? ==> r.error == AgentFailed
      ensures r.Failure? ==>
                Needless(item.name) in host.faults || old(host.At(item.name)).None? || old(host.Now().Runs(item.name))
      ensures old(host.faults) <= host.faults
    {
      DisconnectAll(item.container, s);
      r := host.Remove(item.name, s);
    }

    /** Disconnects and removes the old container; even one that is gone is disconnected. */
    method RemoveOld(item: UpdatePlanItem, ghost s: Scope) returns (r: Result<(), Error>)
      requires Working(item, s) && host.StageNow(item.name) == StartedAs(item)
      modifies host`containers, host`calls, host`stages, host`log, host`faults, item`container
      ensures Working(item, s)
      ensures Reworking(host.StageNow(item.name), item.wasRunning) && !host.StageNow(item.name).Undoing?
      ensures r.Failure? ==> r.error == AgentFailed
      ensures r.Success? ==> host.StageNow(item.name) == Rebuilding(item.wasRunning) && host.At(item.name) == None
      ensures r.Failure? ==>
                Needless(item.name) in host.faults || old(host.At(item.name)).None? || old(host.Now().Runs(item.name))
      ensures old(host.faults) <= host.faults
    {
      var there :- host.Exists(item.name);
      if there {
        var _ :- Refresh(item, s);
      }
      r := DetachAndRemove(item, s);
    }

    /** Creates the container with a configuration for its image spec. */
    method CreateAs(item: UpdatePlanItem, cfg: Config, ghost s: Scope) returns (r: Result<(), Error>)
      requires Working(item, s) && Tagged(item)
      requires cfg.image == item.imageSpec.value && cfg.name == Some(item.name)
      modifies host`containers, host`calls, host`stages, host`log, host`faults, item`container
      ensures Working(item, s) && host.StageNow(item.name) == AfterCreate(old(host.StageNow(item.name)))
      ensures r.Success? ==> host.At(item.name) == Some(Fresh(item, cfg))
      ensures r.Failure? ==>
                r.error == AgentFailed && (Needless(item.name) in host.faults || old(host.At(item.name)).Some?)
      ensures old(host.faults) <= host.faults
    {
      var created :- host.Create(cfg, s);
      item.container := created;
      return Success(());
    }

    /** The configuration for the new image, and the container made from it. */
    method CreateMerged(item: UpdatePlanItem, ghost s: Scope) returns (r: Result<(), Error>)
      requires Working(item, s) && Ready(item) && host.StageNow(item.name) == Rebuilding(item.wasRunning)
      modifies host`containers, host`calls, host`stages, host`log, host`faults, item`container
      ensures Working(item, s) && host.StageNow(item.name) == Rebuilding(item.wasRunning)
      ensures r.Failure? && old(host.At(item.name)).None? ==> Blamed(item, r.error)
      ensures r.Success? ==> host.At(item.name) == Some(Fresh(item, MergedConfig(item)))
      ensures old(host.faults) <= host.faults
    {
      var merged :- DiffContainerConfigWithImage(item.config.value, item.remoteImage.value, host.accepts);
      r := CreateAs(item, merged, s);
    }

    /** Up to and including the creation of the updated container. */
    method Replace(item: UpdatePlanItem, ghost s: Scope) returns (r: Result<(), Error>)
      requires Working(item, s) && Ready(item) && host.StageNow(item.name) == StartedAs(item)
      requires host.At(item.name).Some? && !host.Now().Runs(item.name)
      modifies host`containers, host`calls, host`stages, host`log, host`faults, item`container
      ensures Working(item, s) && Reworking(host.StageNow(item.name), item.wasRunning)
      ensures r.Failure? ==> Blamed(item, r.error)
      ensures r.Success? ==>
                && host.StageNow(item.name) == Rebuilding(item.wasRunning)
                && host.At(item.name) == Some(Fresh(item, MergedConfig(item)))
      ensures old(host.faults) <= host.faults
    {
      var _ :- RemoveOld(item, s);
      r := CreateMerged(item, s);
    }

    ghost function MergedConfig(item: UpdatePlanItem): Config
      requires item.config.Some? && item.remoteImage.Some?
      reads item`config, item`remoteImage
    {
      Merged(item.config.value, item.remoteImage.value)
    }

    /** A newly created container: the image its spec is tagged with now, not running, on its primary network. */
    ghost function Fresh(item: UpdatePlanItem, cfg: Config): Container
      requires Tagged(item)
      reads host`tags
    {
      Container(host.tags[RefOf(item)], cfg, false, CreatedNetworks(cfg.net.networks))
    }

    /** Stop, disconnect and remove; the way both failure paths clear a container out. */
    method TakeDown(item: UpdatePlanItem, ghost s: Scope) returns (r: Result<(), Error>)
      requires Working(item, s) && Reworking(host.StageNow(item.name), item.wasRunning)
      modifies host`containers, host`calls, host`stages, host`log, host`faults, item`container
      ensures Working(item, s) && Reworking(host.StageNow(item.name), item.wasRunning)
      ensures r.Success? ==> host.At(item.name) == None
      ensures r.Failure? ==> r.error == AgentFailed
      ensures r.Failure? ==> Needless(item.name) in host.faults || old(host.At(item.name)).None?
      ensures old(host.faults) <= host.faults && old(host.CallsOf(item.name)) <= host.CallsOf(item.name)
    {
      ReworkingStays(host.StageNow(item.name), item.wasRunning);
      var stopped := StopAndInspect(item, s);
      ReworkingStays(host.StageNow(item.name), item.wasRunning);
      var _ :- stopped;
      r := DetachAndRemove(item, s);
    }

    /** Started, reconnected, and carrying the given configuration on the image its spec is tagged with. */
    ghost predicate Restarted(item: UpdatePlanItem, cfg: Config)
      requires Tagged(item)
      reads item`errors, host`tags, host`containers, host`errored, host`calls, host`stages, host`faults
    {
      && host.At(item.name).Some?
      && var c := host.At(item.name).value;
         c == Fresh(item, cfg).(running := true, networks := c.networks)
         && NetworksRestored(host.isIp, item.origin, c.networks, item.errors, host.faults)
    }

    /** Runs the connect commands of the container that was just started. */
    method Reconnect(item: UpdatePlanItem, ghost cfg: Config, ghost s: Scope)
      requires Working(item, s) && Ready(item) && Renewing(host.StageNow(item.name), item.wasRunning)
      requires host.At(item.name) == Some(Fresh(item, cfg).(running := true)) && cfg.net == item.config.value.net
      modifies host`containers, host`calls, host`stages, host`log, host`errored, host`faults, item`errors
      ensures Working(item, s) && old(item.errors) <= item.errors && old(host.faults) <= host.faults
      ensures TagFailed in item.errors ==> TagFailed in old(item.errors)
      ensures host.StageNow(item.name) == old(host.StageNow(item.name)) && Restarted(item, cfg)
    {
      ghost var started := host.At(item.name).value;
      GeneratedReconnects(item.origin, item.config.value.net.networks);
      RunCommands(item, s);
      AllNetworksRestored(item, started, host.At(item.name).value);
    }

    /** The restarted container as docker shows it now. */
    method RefreshRestarted(item: UpdatePlanItem, ghost cfg: Config, ghost s: Scope) returns (r: Result<(), Error>)
      requires Working(item, s) && Tagged(item) && Restarted(item, cfg)
      modifies host`faults, item`container
      ensures Working(item, s) && Restarted(item, cfg) && old(host.faults) <= host.faults
      ensures r.Failure? ==> r.error == AgentFailed && Needless(item.name) in host.faults
    {
      ghost var c, faults := host.At(item.name).value, host.faults;
      r := Refresh(item, s);
      NetworksStay(host.isIp, item.origin, c.networks, item.errors, item.errors, faults, host.faults);
    }

    method ReconnectAndLook(item: UpdatePlanItem, ghost cfg: Config, ghost s: Scope) returns (r: Result<(), Error>)
      requires Working(item, s) && Ready(item) && Renewing(host.StageNow(item.name), item.wasRunning)
      requires host.At(item.name) == Some(Fresh(item, cfg).(running := true)) && cfg.net == item.config.value.net
      modifies host`containers, host`calls, host`stages, host`log, host`errored, host`faults
      modifies item`container, item`errors
      ensures Working(item, s) && old(item.errors) <= item.errors
      ensures TagFailed in item.errors ==> TagFailed in old(item.errors)
      ensures host.StageNow(item.name) == old(host.StageNow(item.name)) && Restarted(item, cfg)
      ensures r.Failure? ==> r.error == AgentFailed && Needless(item.name) in host.faults
      ensures old(host.faults) <= host.faults
    {
      Reconnect(item, cfg, s);
      r := RefreshRestarted(item, cfg, s);
    }

    /** Starts the freshly created container and runs its connect commands. */
    method StartAndConnect(item: UpdatePlanItem, ghost cfg: Config, ghost s: Scope) returns (r: Result<(), Error>)
      requires Working(item, s) && Ready(item) && Renewing(host.StageNow(item.name), item.wasRunning)
      requires host.At(item.name) == Some(Fresh(item, cfg)) && cfg.net == item.config.value.net
      modifies host`containers, host`calls, host`stages, host`log, host`errored, host`faults
      modifies item`container, item`errors
      ensures Working(item, s) && old(item.errors) <= item.errors
      ensures TagFailed in item.errors ==> TagFailed in old(item.errors)
      ensures host.StageNow(item.name) == old(host.StageNow(item.name))
      ensures r.Success? ==> Restarted(item, cfg)
      ensures r.Failure? ==> r.error == AgentFailed && Needless(item.name) in host.faults
      ensures old(host.faults) <= host.faults
    {
      var _ :- host.Start(item.name, s);
      r := ReconnectAndLook(item, cfg, s);
    }

    lemma AllNetworksRestored(item: UpdatePlanItem, c: Container, c': Container)
      requires Ready(item) && MoreNetworks(host.isIp, c, c', item.origin)
      requires c.networks == CreatedNetworks(item.config.value.net.networks)
      requires CommandsDone(host.isIp, item.name, item.commands, c'.networks, item.errors, host.faults)
      ensures NetworksRestored(host.isIp, item.origin, c'.networks, item.errors, host.faults)
    {
      GeneratedReconnects(item.origin, item.config.value.net.networks);
      forall a | a in item.origin.networks && a.0 != MainKey(item.origin)
        ensures a.0 in c'.networks || CommandFailed(ConnectCommand(a.0, a.1, item.name)) in item.errors
        ensures Connectable(host.isIp, a.0, a.1, item.name) ==>
                  a.0 in c'.networks || Unplugged(item.name, a.0) in host.faults
      {
        var cmd := ConnectCommand(a.0, a.1, item.name);
        assert cmd in item.commands && NetworkOf(cmd) == a.0;
        ConnectAcceptedIff(host.isIp, a.0, a.1, item.name);
      }
    }

    /** A new container that was found unhealthy had its whole pre_rollback hook before it was taken down. */
    ghost predicate Forewarned(item: UpdatePlanItem)
      reads item`judged, host`containers, host`errored, host`calls, host`stages
    {
      FoundUnhealthy(item.judged) ==> Warned(host.CallsOf(item.name), CommandsOf(item.name, PreRollback))
    }

    lemma WarnedBy(before: seq<Call>, after: seq<Call>, h: Hooks)
      requires StageOf(before) == Rebuilding(true)
      requires RanFirst(before, after, PreRollback, Commands(h, PreRollback))
      ensures Warned(after, Commands(h, PreRollback))
    {
      var commands := Commands(h, PreRollback);
      var block :| IsBlock(block, PreRollback, commands) && before + block <= after;
      WarnedNow(before, block, commands);
      WarnedStill(before + block, after, commands);
    }

    /** The way an unhealthy new container goes. */
    method GiveUp(item: UpdatePlanItem, ghost s: Scope) returns (r: Result<(), Error>)
      requires Working(item, s) && Reworking(host.StageNow(item.name), item.wasRunning) && TagFailed !in item.errors
      modifies host`containers, host`calls, host`stages, host`log, host`errored, host`faults
      modifies item`container, item`errors
      ensures Working(item, s) && Reworking(host.StageNow(item.name), item.wasRunning)
      ensures old(item.errors) <= item.errors && TagFailed !in item.errors
      ensures r.Success? ==> host.At(item.name) == None
      ensures r.Failure? ==> r.error == AgentFailed
      ensures r.Failure? ==> Needless(item.name) in host.faults || old(host.At(item.name)).None?
      ensures old(host.faults) <= host.faults
      ensures RanFirst(old(host.CallsOf(item.name)), host.CallsOf(item.name), PreRollback,
                       CommandsOf(item.name, PreRollback))
    {
      ReworkingStays(host.StageNow(item.name), item.wasRunning);
      ghost var failed, block := ReportHooks(item, PreRollback, s);
      assert IsBlock(block, PreRollback, CommandsOf(item.name, PreRollback));
      r := TakeDown(item, s);
    }

    /** A hook whose failures are only recorded leaves a restarted container as it is. */
    method ReportRestarted(item: UpdatePlanItem, kind: HookKind, ghost cfg: Config, ghost s: Scope)
      requires Working(item, s) && Tagged(item) && Restarted(item, cfg) && kind in {PostUpdate, PostRollback}
      requires HookAllowed(host.StageNow(item.name), kind)
      modifies host`calls, host`stages, host`log, host`errored, host`faults, item`errors
      ensures Working(item, s) && Restarted(item, cfg) && old(item.errors) <= item.errors
      ensures old(host.faults) <= host.faults
      ensures TagFailed in item.errors <==> TagFailed in old(item.errors)
      ensures host.StageNow(item.name) == HookEnd(old(host.StageNow(item.name)), kind, true)
    {
      ghost var c, errors, faults := host.At(item.name).value, item.errors, host.faults;
      ghost var failed, block := ReportHooks(item, kind, s);
      NetworksStay(host.isIp, item.origin, c.networks, errors, item.errors, faults, host.faults);
    }

    /**
     How a launch ends: with a healthy verdict, an unhealthy one and a cleared place, or a call that
     raised needlessly.
     */
    ghost predicate LaunchDone(item: UpdatePlanItem, r: Result<bool, Error>, cfg: Config)
      requires Tagged(item)
      reads host, item`errors, item`result, item`judged, item`container
    {
      match r
      case Success(true) =>
        && item.result == Updated && host.StageNow(item.name) == Accepted && Restarted(item, cfg)
        && FoundHealthy(item.judged, item.container)
      case Success(false) =>
        && item.result == NoResult && Reworking(host.StageNow(item.name), item.wasRunning)
        && host.At(item.name) == None && FoundUnhealthy(item.judged)
      case Failure(e) =>
        && item.result == NoResult && Reworking(host.StageNow(item.name), item.wasRunning)
        && e == AgentFailed && Needless(item.name) in host.faults
    }

    /** A healthy new container is the update's result; failed hooks are only recorded. */
    method Accept(item: UpdatePlanItem, ghost cfg: Config, ghost s: Scope) returns (r: Result<bool, Error>)
      requires Working(item, s) && Tagged(item) && TagFailed !in item.errors
      requires host.StageNow(item.name) == Rebuilding(true) && Restarted(item, cfg)
      requires FoundHealthy(item.judged, item.container)
      modifies host`calls, host`stages, host`log, host`errored, host`faults, item`errors, item`result
      ensures Working(item, s) && TagFailed !in item.errors && old(host.faults) <= host.faults
      ensures r == Success(true) && LaunchDone(item, r, cfg)
    {
      item.result := Updated;
      ReportRestarted(item, PostUpdate, cfg, s);
      return Success(true);
    }

    /** Waits for the restarted container and keeps the last inspection with its verdict. */
    method JudgeHealth(item: UpdatePlanItem, ghost cfg: Config, ghost s: Scope) returns (r: Result<bool, Error>)
      requires Working(item, s) && Tagged(item) && Restarted(item, cfg)
      modifies host`faults, item`container, item`judged
      ensures Working(item, s) && Restarted(item, cfg) && old(host.faults) <= host.faults
      ensures r.Success? ==> if r.value then FoundHealthy(item.judged, item.container) else FoundUnhealthy(item.judged)
      ensures r.Failure? ==>
                r.error == AgentFailed && Needless(item.name) in host.faults && item.judged == old(item.judged)
    {
      ghost var c, faults := host.At(item.name).value, host.faults;
      var verdict, looks := WaitForHealthy(item.container);
      NetworksStay(host.isIp, item.origin, c.networks, item.errors, item.errors, faults, host.faults);
      var look :- verdict;
      item.judged := Some(HealthCheck(item.container, looks, look.1, look.0));
      item.container := look.1;
      return Success(look.0);
    }

    /** A container that is not healthy is taken down for the rollback. */
    method Reject(item: UpdatePlanItem, ghost cfg: Config, ghost s: Scope) returns (r: Result<bool, Error>)
      requires Working(item, s) && Tagged(item) && item.result == NoResult && TagFailed !in item.errors
      requires host.StageNow(item.name) == Rebuilding(true) && item.wasRunning && host.At(item.name).Some?
      requires FoundUnhealthy(item.judged)
      modifies host`containers, host`calls, host`stages, host`log, host`errored, host`faults
      modifies item`container, item`errors
      ensures Working(item, s) && TagFailed !in item.errors && old(host.faults) <= host.faults
      ensures r != Success(true) && LaunchDone(item, r, cfg)
      ensures Forewarned(item)
    {
      var gone := GiveUp(item, s);
      WarnedBy(old(host.CallsOf(item.name)), host.CallsOf(item.name), s.hooks);
      var _ :- gone;
      return Success(false);
    }

    /** What follows from the verdict. */
    method Decide(item: UpdatePlanItem, healthy: bool, ghost cfg: Config, ghost s: Scope)
      returns (r: Result<bool, Error>)
      requires Working(item, s) && Tagged(item) && item.result == NoResult && TagFailed !in item.errors
      requires host.StageNow(item.name) == Rebuilding(true) && item.wasRunning && Restarted(item, cfg)
      requires if healthy then FoundHealthy(item.judged, item.container) else FoundUnhealthy(item.judged)
      modifies host`containers, host`calls, host`stages, host`log, host`errored, host`faults
      modifies item`container, item`errors, item`result
      ensures Working(item, s) && TagFailed !in item.errors && old(host.faults) <= host.faults
      ensures LaunchDone(item, r, cfg)
      ensures r != Success(true) ==> Forewarned(item)
    {
      if healthy {
        r := Accept(item, cfg, s);
      } else {
        r := Reject(item, cfg, s);
      }
    }

    /** Healthy means updated; otherwise the new container is taken down for the rollback. */
    method Judge(item: UpdatePlanItem, ghost cfg: Config, ghost s: Scope) returns (r: Result<bool, Error>)
      requires Working(item, s) && Tagged(item) && item.result == NoResult && TagFailed !in item.errors
      requires item.judged == None
      requires host.StageNow(item.name) == Rebuilding(true) && item.wasRunning && Restarted(item, cfg)
      modifies host`containers, host`calls, host`stages, host`log, host`errored, host`faults
      modifies item`container, item`errors, item`result, item`judged
      ensures Working(item, s) && TagFailed !in item.errors && old(host.faults) <= host.faults
      ensures LaunchDone(item, r, cfg)
      ensures r != Success(true) ==> Forewarned(item)
    {
      var healthy :- JudgeHealth(item, cfg, s);
      r := Decide(item, healthy, cfg, s);
    }

    /** Starts the new container and judges it. */
    method Launch(item: UpdatePlanItem, ghost cfg: Config, ghost s: Scope) returns (r: Result<bool, Error>)
      requires Working(item, s) && Ready(item) && item.result == NoResult && TagFailed !in item.errors
      requires host.StageNow(item.name) == Rebuilding(true) && item.wasRunning
      requires host.At(item.name) == Some(Fresh(item, cfg))
      requires cfg.net == item.config.value.net && item.judged == None
      modifies host`containers, host`calls, host`stages, host`log, host`errored, host`faults
      modifies item`container, item`errors, item`result, item`judged
      ensures Working(item, s) && TagFailed !in item.errors && old(host.faults) <= host.faults
      ensures LaunchDone(item, r, cfg) && (r != Success(true) ==> Forewarned(item))
    {
      var _ :- StartAndConnect(item, cfg, s);
      r := Judge(item, cfg, s);
    }

    /** A container that ran is updated once its post_update hooks are done. */
    function UpdatedAs(item: UpdatePlanItem): Stage {
      if item.wasRunning then Accepted else Rebuilding(false)
    }

    /** An update that came through: the merged configuration, and for a container that ran a healthy verdict. */
    ghost predicate UpdateDone(item: UpdatePlanItem)
      requires Tagged(item) && item.config.Some? && item.remoteImage.Some?
      reads host, item`errors, item`config, item`remoteImage, item`judged, item`container, item`result
    {
      && item.result == Updated && host.StageNow(item.name) == UpdatedAs(item)
      && if item.wasRunning then Restarted(item, MergedConfig(item)) && FoundHealthy(item.judged, item.container)
         else host.At(item.name) == Some(Fresh(item, MergedConfig(item)))
    }

    /** An update that was undone: rolled back or failed, why, and where the tag points. */
    ghost predicate UndoDone(item: UpdatePlanItem)
      requires Tagged(item) && item.config.Some? && item.localImage.Some?
      reads host, item`errors, item`config, item`localImage, item`judged, item`result, item`closing, item`container
    {
      && (|| (item.result == Failed && item.errors != [] && Needless(item.name) in host.faults
              && UndoneAs(item, host.StageNow(item.name)))
          || (item.result == RolledBack && Restarted(item, item.config.value)
              && host.StageNow(item.name) == Restored(item.wasRunning)
              && Concluded(item.closing, item.container)
              && (item.errors != [] || (item.wasRunning && FoundUnhealthy(item.judged)))))
      && (FoundUnhealthy(item.judged) || InvalidConfig in item.errors || Needless(item.name) in host.faults)
      && (TagFailed !in item.errors ==> host.tags[RefOf(item)] == item.localImage.value.id)
    }

    /** The replaced container as the old one was: a container that ran is launched, any other is done. */
    method LaunchAsBefore(item: UpdatePlanItem, ghost cfg: Config, ghost s: Scope) returns (r: Result<bool, Error>)
      requires Working(item, s) && Ready(item) && item.errors == [] && item.result == NoResult
      requires item.judged == None
      requires cfg == MergedConfig(item)
      requires host.StageNow(item.name) == Rebuilding(item.wasRunning) && host.At(item.name) == Some(Fresh(item, cfg))
      modifies host`containers, host`calls, host`stages, host`log, host`errored, host`faults
      modifies item`container, item`errors, item`result, item`judged
      ensures Working(item, s) && TagFailed !in item.errors
      ensures r.Success? && r.value ==> UpdateDone(item)
      ensures !(r.Success? && r.value) ==>
                && item.result == NoResult && Reworking(host.StageNow(item.name), item.wasRunning) && Forewarned(item)
      ensures r.Success? && !r.value ==> item.wasRunning && host.At(item.name) == None && FoundUnhealthy(item.judged)
      ensures r.Failure? ==> r.error == AgentFailed && Needless(item.name) in host.faults
      ensures old(host.faults) <= host.faults
    {
      if item.wasRunning {
        r := Launch(item, cfg, s);
        return;
      }
      item.result := Updated;
      return Success(true);
    }

    /** The `try` body of one update: true when it is over, false when the old configuration must come back. */
    method TryUpdate(item: UpdatePlanItem, ghost s: Scope) returns (r: Result<bool, Error>)
      requires Working(item, s) && Ready(item) && item.errors == [] && item.result == NoResult
      requires item.judged == None
      requires host.StageNow(item.name) == StartedAs(item) && host.At(item.name).Some? && !host.Now().Runs(item.name)
      modifies host`containers, host`calls, host`stages, host`log, host`errored, host`faults
      modifies item`container, item`errors, item`result, item`judged
      ensures Working(item, s) && TagFailed !in item.errors
      ensures r.Success? && r.value ==> UpdateDone(item)
      ensures !(r.Success? && r.value) ==>
                && item.result == NoResult && Reworking(host.StageNow(item.name), item.wasRunning) && Forewarned(item)
      ensures r.Success? && !r.value ==> item.wasRunning && host.At(item.name) == None && FoundUnhealthy(item.judged)
      ensures r.Failure? ==> Blamed(item, r.error)
      ensures old(host.faults) <= host.faults
    {
      ghost var ready := Ready(item);
      var _ :- Replace(item, s);
      assert Ready(item) == ready;
      r := LaunchAsBefore(item, MergedConfig(item), s);
    }

    /** The way a container goes that a failed update left behind. */
    method ClearLeftover(item: UpdatePlanItem, ghost s: Scope) returns (r: Result<(), Error>)
      requires Working(item, s) && Reworking(host.StageNow(item.name), item.wasRunning) && host.At(item.name).Some?
      requires TagFailed !in item.errors
      modifies host`containers, host`calls, host`stages, host`log, host`errored, host`faults
      modifies item`container, item`errors
      ensures Working(item, s) && Reworking(host.StageNow(item.name), item.wasRunning)
      ensures old(item.errors) <= item.errors && TagFailed !in item.errors
      ensures r.Success? ==> host.At(item.name) == None
      ensures r.Failure? ==> r.error == AgentFailed && Needless(item.name) in host.faults
      ensures old(host.faults) <= host.faults
    {
      var _ :- Refresh(item, s);
      if item.container.running {
        r := GiveUp(item, s);
      } else {
        r := TakeDown(item, s);
      }
    }

    /** The `try` body that clears out whatever a failed update left behind. */
    method CleanUp(item: UpdatePlanItem, ghost s: Scope) returns (r: Result<(), Error>)
      requires Working(item, s) && Reworking(host.StageNow(item.name), item.wasRunning) && TagFailed !in item.errors
      modifies host`containers, host`calls, host`stages, host`log, host`errored, host`faults
      modifies item`container, item`errors
      ensures Working(item, s) && Reworking(host.StageNow(item.name), item.wasRunning)
      ensures old(item.errors) <= item.errors && TagFailed !in item.errors
      ensures r.Success? ==> host.At(item.name) == None
      ensures r.Failure? ==> r.error == AgentFailed && Needless(item.name) in host.faults
      ensures old(host.faults) <= host.faults
    {
      var there :- host.Exists(item.name);
      if !there {
        return Success(());
      }
      r := ClearLeftover(item, s);
    }

    /** Creates the container with its previous configuration. */
    method CreateAgain(item: UpdatePlanItem, ghost s: Scope) returns (r: Result<(), Error>)
      requires Working(item, s) && Ready(item) && Reworking(host.StageNow(item.name), item.wasRunning)
      modifies host`containers, host`calls, host`stages, host`log, host`faults, item`container
      ensures Working(item, s) && Renewing(host.StageNow(item.name), item.wasRunning)
      ensures r.Success? ==> host.At(item.name) == Some(Fresh(item, item.config.value))
      ensures r.Failure? ==>
                r.error == AgentFailed && (Needless(item.name) in host.faults || old(host.At(item.name)).Some?)
      ensures old(host.faults) <= host.faults
    {
      r := CreateAs(item, item.config.value, s);
    }

    /** Creates and starts the container with its previous configuration. */
    method Recreate(item: UpdatePlanItem, ghost s: Scope) returns (r: Result<(), Error>)
      requires Working(item, s) && Ready(item) && Reworking(host.StageNow(item.name), item.wasRunning)
      modifies host`containers, host`calls, host`stages, host`log, host`errored, host`faults
      modifies item`container, item`errors
      ensures Working(item, s)
      ensures old(item.errors) <= item.errors && (TagFailed in item.errors ==> TagFailed in old(item.errors))
      ensures Renewing(host.StageNow(item.name), item.wasRunning)
      ensures r.Success? ==> Restarted(item, item.config.value)
      ensures r.Failure? ==>
                r.error == AgentFailed && (Needless(item.name) in host.faults || old(host.At(item.name)).Some?)
      ensures old(host.faults) <= host.faults
    {
      var _ :- CreateAgain(item, s);
      r := StartAndConnect(item, item.config.value, s);
    }

    /** How the attempt to bring the previous configuration back ends. */
    ghost predicate RestoreDone(item: UpdatePlanItem, r: Result<(), Error>, cfg: Config)
      requires Tagged(item)
      reads host, item`errors, item`result, item`closing, item`container
    {
      && UndoneAs(item, host.StageNow(item.name))
      && match r
         case Success(_) =>
           && item.result == RolledBack && Restarted(item, cfg)
           && host.StageNow(item.name) == Restored(item.wasRunning) && Concluded(item.closing, item.container)
         case Failure(e) => e == AgentFailed
    }

    /** A last look at a container that was rolled back; an unhealthy one stays. */
    method LookAgain(item: UpdatePlanItem, ghost cfg: Config, ghost s: Scope) returns (r: Result<(), Error>)
      requires Working(item, s) && Tagged(item) && Restarted(item, cfg)
      modifies host`faults, item`container, item`closing
      ensures Working(item, s) && Restarted(item, cfg) && old(host.faults) <= host.faults
      ensures r.Success? ==> Concluded(item.closing, item.container)
      ensures r.Failure? ==> r.error == AgentFailed && Needless(item.name) in host.faults
    {
      ghost var c, faults := host.At(item.name).value, host.faults;
      var verdict, looks := WaitForHealthy(item.container);
      NetworksStay(host.isIp, item.origin, c.networks, item.errors, item.errors, faults, host.faults);
      var look :- verdict;
      item.closing := Some(HealthCheck(item.container, looks, look.1, look.0));
      item.container := look.1;
      return Success(());
    }

    /** Hooks and a last look at a container that was rolled back. */
    method CloseRollback(item: UpdatePlanItem, ghost cfg: Config, ghost s: Scope) returns (r: Result<(), Error>)
      requires Working(item, s) && Tagged(item) && Renewing(host.StageNow(item.name), item.wasRunning)
      requires Restarted(item, cfg)
      modifies host`calls, host`stages, host`log, host`errored, host`faults
      modifies item`container, item`errors, item`result, item`closing
      ensures Working(item, s) && RestoreDone(item, r, cfg)
      ensures old(item.errors) <= item.errors && (TagFailed in item.errors <==> TagFailed in old(item.errors))
      ensures r.Failure? ==> Needless(item.name) in host.faults
      ensures old(host.faults) <= host.faults
    {
      item.result := RolledBack;
      ReportRestarted(item, PostRollback, cfg, s);
      r := LookAgain(item, cfg, s);
    }

    /** The `try` body that brings the previous configuration back. */
    method Restore(item: UpdatePlanItem, ghost s: Scope) returns (r: Result<(), Error>)
      requires Working(item, s) && Ready(item) && Reworking(host.StageNow(item.name), item.wasRunning)
      modifies host`containers, host`calls, host`stages, host`log, host`errored, host`faults
      modifies item`container, item`errors, item`result, item`closing
      ensures Working(item, s) && RestoreDone(item, r, item.config.value)
      ensures old(item.errors) <= item.errors && (TagFailed in item.errors <==> TagFailed in old(item.errors))
      ensures r.Failure? ==> Needless(item.name) in host.faults || old(host.At(item.name)).Some?
      ensures old(host.faults) <= host.faults
    {
      ghost var cfg, ready := item.config.value, Ready(item);
      var _ :- Recreate(item, s);
      assert Ready(item) == ready;
      r := CloseRollback(item, cfg, s);
      assert item.config.value == cfg;
    }

    /** Re-tags the previous image, whether or not other containers share the spec. */
    method TagPrevious(item: UpdatePlanItem, ghost s: Scope)
      requires Working(item, s) && Ready(item) && TagFailed !in item.errors
      modifies host`tags, host`errored, host`faults, item`errors
      ensures Working(item, s) && Ready(item) && old(item.errors) <= item.errors && old(host.faults) <= host.faults
      ensures host.tags == old(host.tags) || host.tags == old(host.tags)[RefOf(item) := item.localImage.value.id]
      ensures TagFailed !in item.errors ==> host.tags[RefOf(item)] == item.localImage.value.id
    {
      var tagged := host.Tag(item.localImage.value.id, item.imageSpec.value, item.name);
      if tagged.Failure? {
        Record(item, [tagged.error], s);
        assert item.errors[|item.errors| - 1] == TagFailed;
      }
    }

    /** Restores the previous configuration, or fails with the error of the attempt. */
    method RestoreOrFail(item: UpdatePlanItem, ghost s: Scope)
      requires Working(item, s) && Ready(item) && Reworking(host.StageNow(item.name), item.wasRunning)
      requires host.At(item.name) == None || Needless(item.name) in host.faults
      modifies host`containers, host`calls, host`stages, host`log, host`errored, host`faults
      modifies item`container, item`errors, item`result, item`closing
      ensures Working(item, s) && old(item.errors) <= item.errors
      ensures TagFailed in item.errors <==> TagFailed in old(item.errors)
      ensures (item.result == Failed && item.errors != [] && Needless(item.name) in host.faults) ||
              (item.result == RolledBack && Restarted(item, item.config.value)
                && host.StageNow(item.name) == Restored(item.wasRunning) && Concluded(item.closing, item.container))
      ensures UndoneAs(item, host.StageNow(item.name))
      ensures old(host.faults) <= host.faults
    {
      var r := Restore(item, s);
      if r.Failure? {
        Record(item, [r.error], s);
        item.result := Failed;
      }
    }

    /** Starts from a cleared place, unless an error says why not. */
    method RollBack(item: UpdatePlanItem, ghost s: Scope)
      requires Working(item, s) && Ready(item) && Reworking(host.StageNow(item.name), item.wasRunning)
      requires TagFailed !in item.errors
      requires host.At(item.name) == None || Needless(item.name) in host.faults
      modifies host, item`container, item`errors, item`result, item`closing
      ensures Working(item, s) && RefOf(item) in host.tags && old(item.errors) <= item.errors
      ensures host.tags == old(host.tags) || host.tags == old(host.tags)[RefOf(item) := item.localImage.value.id]
      ensures TagFailed !in item.errors ==> host.tags[RefOf(item)] == item.localImage.value.id
      ensures (item.result == Failed && item.errors != [] && Needless(item.name) in host.faults) ||
              (item.result == RolledBack && Restarted(item, item.config.value)
                && host.StageNow(item.name) == Restored(item.wasRunning) && Concluded(item.closing, item.container))
      ensures UndoneAs(item, host.StageNow(item.name))
      ensures old(host.faults) <= host.faults
    {
      TagPrevious(item, s);
      RestoreOrFail(item, s);
    }

    /** The handler of a failed update: its error and those of the clean-up are recorded. */
    method Abandon(item: UpdatePlanItem, error: Error, ghost s: Scope)
      requires Working(item, s) && Reworking(host.StageNow(item.name), item.wasRunning)
      requires TagFailed !in item.errors && Blamed(item, error)
      modifies host`containers, host`calls, host`stages, host`log, host`errored, host`faults
      modifies item`container, item`errors
      ensures Working(item, s) && Reworking(host.StageNow(item.name), item.wasRunning)
      ensures TagFailed !in item.errors && item.errors != []
      ensures error in item.errors && (host.At(item.name) == None || Needless(item.name) in host.faults)
      ensures old(host.faults) <= host.faults
    {
      Record(item, [error], s);
      assert error == item.errors[|item.errors| - 1];
      var cleaned := CleanUp(item, s);
      if cleaned.Failure? {
        Record(item, [cleaned.error], s);
      }
    }

    /** What follows an update that did not end well: with an error its handler, then the rollback. */
    method Undo(item: UpdatePlanItem, error: Option<Error>, ghost s: Scope)
      requires Working(item, s) && Ready(item) && Reworking(host.StageNow(item.name), item.wasRunning)
      requires TagFailed !in item.errors
      requires error.None? ==> item.wasRunning && host.At(item.name) == None && FoundUnhealthy(item.judged)
      requires error.Some? ==> Blamed(item, error.value)
      modifies host, item`container, item`errors, item`result, item`closing
      ensures Working(item, s) && RefOf(item) in host.tags
      ensures host.tags == old(host.tags) || host.tags == old(host.tags)[RefOf(item) := item.localImage.value.id]
      ensures UndoDone(item)
      ensures old(host.faults) <= host.faults
    {
      if error.Some? {
        Abandon(item, error.value, s);
      }
      RollBack(item, s);
    }

    /** The undoing only adds to the calls made so far. */
    method UndoOnward(item: UpdatePlanItem, error: Option<Error>, ghost s: Scope)
      requires Working(item, s) && Ready(item) && Reworking(host.StageNow(item.name), item.wasRunning)
      requires TagFailed !in item.errors && Forewarned(item)
      requires error.None? ==> item.wasRunning && host.At(item.name) == None && FoundUnhealthy(item.judged)
      requires error.Some? ==> Blamed(item, error.value)
      modifies host, item`container, item`errors, item`result, item`closing
      ensures Working(item, s) && RefOf(item) in host.tags
      ensures host.tags == old(host.tags) || host.tags == old(host.tags)[RefOf(item) := item.localImage.value.id]
      ensures UndoDone(item) && Forewarned(item)
      ensures old(host.faults) <= host.faults
    {
      ghost var mid := Scope(s.name, s.start, host.Now(), host.log, s.hooks);
      host.Reopened(s, mid);
      Undo(item, error, mid);
      host.Rejoined(s, mid);
      if FoundUnhealthy(item.judged) {
        WarnedStill(mid.base.CallsOf(item.name), host.CallsOf(item.name), CommandsOf(item.name, PreRollback));
      }
    }

    /** One update with its clean-up and rollback. */
    method UpdateItem(item: UpdatePlanItem, ghost s: Scope)
      requires Working(item, s) && Ready(item) && item.errors == [] && item.result == NoResult
      requires item.judged == None
      requires host.StageNow(item.name) == StartedAs(item) && host.At(item.name).Some? && !host.Now().Runs(item.name)
      modifies host, item`container, item`errors, item`result, item`judged, item`closing
      ensures Working(item, s) && RefOf(item) in host.tags
      ensures (UpdateDone(item) && host.tags == old(host.tags)) || (UndoDone(item) && Forewarned(item))
      ensures host.tags == old(host.tags) || host.tags == old(host.tags)[RefOf(item) := item.localImage.value.id]
      ensures old(host.faults) <= host.faults
    {
      ghost var ready := Ready(item);
      var r := TryUpdate(item, s);
      if r.Success? && r.value {
        return;
      }
      assert Ready(item) == ready;
      UndoOnward(item, if r.Failure? then Some(r.error) else None, s);
    }

    lemma UpdateSettles(item: UpdatePlanItem, before: Option<Container>)
      requires Tagged(item)
      requires item.config.Some? && item.remoteImage.Some? && item.localImage.Some?
      requires UpdateDone(item) || (UndoDone(item) && Forewarned(item))
      ensures Settled(item, item.State(), before, host.Now(), host.faults)
    {
    }

    /** The error of a failed start; of all errors, only a bad health verdict rests on the item's own record. */
    method RecordFailure(item: UpdatePlanItem, error: Error, ghost s: Scope)
      requires Working(item, s) && NotStarted(item, error) && Early(item.errors)
      modifies item`errors, host`errored
      ensures InHand(item, s) && Grounded(item, item.State(), host.faults)
      ensures item.errors == old(item.errors) + [error] && Early(item.errors)
    {
      item.errors := item.errors + [error];
      host.RecordError(s);
    }

    lemma TagsSettle(item: UpdatePlanItem, tags: map<string, string>)
      requires item.imageSpec.Some? && RefOf(item) in host.tags && RefOf(item) in tags
      requires item.config.Some? && item.remoteImage.Some? && item.localImage.Some?
      requires (UpdateDone(item) && host.tags == tags) || UndoDone(item)
      requires host.tags == tags || host.tags == tags[RefOf(item) := item.localImage.value.id]
      ensures TagsAfter(item, item.State(), host.At(item.name), tags, host.tags)
    {
    }

    /** An affected container, or an updatable one with prior errors, is started if it ran. */
    method StartOnly(item: UpdatePlanItem, ghost s: Scope)
      requires Working(item, s) && item.result == NoResult && host.At(item.name).Some? && Early(item.errors)
      requires item.wasRunning ==>
                 || host.StageNow(item.name) in {Halted, Drained}
                 || (Refused(host.StageNow(item.name)) && host.Now().Runs(item.name))
      requires !item.wasRunning ==> host.StageNow(item.name) == Untouched && !host.Now().Runs(item.name)
      modifies host`containers, host`calls, host`stages, host`log, host`errored, host`faults
      modifies item`container, item`errors, item`judged
      ensures InHand(item, s) && Grounded(item, item.State(), host.faults)
      ensures Settled(item, item.State(), old(host.At(item.name)), host.Now(), host.faults)
      ensures old(item.errors) <= item.errors && item.result == NoResult
      ensures host.StageNow(item.name) == old(host.StageNow(item.name)) ||
              (old(host.StageNow(item.name)) in {Halted, Drained} &&
               host.StageNow(item.name) == AfterStart(old(host.StageNow(item.name))))
      ensures old(host.faults) <= host.faults
      ensures forall e :: e in item.errors ==> e in old(item.errors) || Mishap(e, item.name, item.judged, host.faults)
    {
      var r := AttemptStartWithHealth(item, s);
      if r.Failure? {
        RecordFailure(item, r.error, s);
      }
    }

    /** The turn of a container that can be updated. */
    method UpdateTurn(item: UpdatePlanItem, ghost s: Scope)
      requires Working(item, s) && Ready(item) && item.errors == [] && item.result == NoResult
      requires item.judged == None
      requires host.StageNow(item.name) == StartedAs(item) && host.At(item.name).Some? && !host.Now().Runs(item.name)
      modifies host, item`container, item`errors, item`result, item`judged, item`closing
      ensures Working(item, s) && Settled(item, item.State(), old(host.At(item.name)), host.Now(), host.faults)
      ensures TagsAfter(item, item.State(), host.At(item.name), old(host.tags), host.tags)
      ensures item.result != NoResult && Prepared(item)
      ensures old(host.faults) <= host.faults
    {
      UpdateItem(item, s);
      UpdateSettles(item, old(host.At(item.name)));
      TagsSettle(item, old(host.tags));
    }

    /** The body of the start and update loop for one container. */
    method ProcessItem(item: UpdatePlanItem, inUpdate: bool, ghost s: Scope)
      requires Working(item, s) && item.result == NoResult && host.At(item.name).Some? && Early(item.errors)
      requires item.wasRunning ==>
                 || host.StageNow(item.name) == StoppedAs(inUpdate)
                 || (RefusedAs(inUpdate, host.StageNow(item.name)) && host.Now().Runs(item.name) && item.errors != [])
      requires !item.wasRunning ==> host.StageNow(item.name) == Untouched && !host.Now().Runs(item.name)
      requires item.errors == [] ==> !host.Now().Runs(item.name)
      requires inUpdate && item.CanUpdate() ==> Ready(item) && item.judged == None
      modifies host, item`container, item`errors, item`result, item`judged, item`closing
      ensures InHand(item, s) && Grounded(item, item.State(), host.faults)
      ensures Settled(item, item.State(), old(host.At(item.name)), host.Now(), host.faults)
      ensures old(item.errors) <= item.errors
      ensures item.result != NoResult <==> inUpdate && old(item.CanUpdate())
      ensures TagsAfter(item, item.State(), host.At(item.name), old(host.tags), host.tags)
      ensures item.result != NoResult ==> Prepared(item)
      ensures item.result == NoResult ==> HeldAs(item.wasRunning, inUpdate, host.StageNow(item.name))
      ensures old(host.faults) <= host.faults
      ensures !inUpdate ==>
                forall e :: e in item.errors ==> e in old(item.errors) || Mishap(e, item.name, item.judged, host.faults)
    {
      if inUpdate && item.CanUpdate() {
        UpdateTurn(item, s);
      } else {
        StartOnly(item, s);
      }
    }
  }
}
