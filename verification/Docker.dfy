/**
 A Docker host behind its agent. Every agent call may raise at any point, and a raised call may or
 may not have taken effect. Only `Remove` deletes a container, and `Create` refuses a taken name.
 The ghost log keeps one moment for every call that can change the host.
 */
module Docker {
  import opened Wrappers
  import opened Errors
  import opened ContainerInfo
  import opened NetKwargs
  import opened ContainerConfig
  import opened CallProtocol
  import opened HookScript
  import CommandValidator

  datatype Container = Container(image: string, config: Config, running: bool, networks: set<string>)

  function CallsIn(calls: map<string, seq<Call>>, name: string): seq<Call> {
    if name in calls then calls[name] else []
  }

  function StageIn(stages: map<string, Stage>, name: string): Stage {
    if name in stages then stages[name] else Untouched
  }

  /** The stages are those the protocol assigns to the calls made so far. */
  ghost predicate Tracked(calls: map<string, seq<Call>>, stages: map<string, Stage>) {
    forall n {:trigger StageOf(CallsIn(calls, n))} :: StageOf(CallsIn(calls, n)) == StageIn(stages, n)
  }

  lemma TrackedStep(calls: map<string, seq<Call>>, stages: map<string, Stage>, name: string, call: Call)
    requires Tracked(calls, stages)
    ensures Tracked(calls[name := CallsIn(calls, name) + [call]], stages[name := Next(StageIn(stages, name), call)])
  {
    var calls' := calls[name := CallsIn(calls, name) + [call]];
    var stages' := stages[name := Next(StageIn(stages, name), call)];
    forall n ensures StageOf(CallsIn(calls', n)) == StageIn(stages', n) {
      assert StageOf(CallsIn(calls, n)) == StageIn(stages, n);
      StageAfter(CallsIn(calls, name), call);
    }
  }

  datatype Moment = Moment(
    containers: map<string, Container>,
    errored: set<string>,
    calls: map<string, seq<Call>>,
    stages: map<string, Stage>)
  {
    function CallsOf(name: string): seq<Call> {
      CallsIn(calls, name)
    }

    function StageAt(name: string): Stage {
      StageIn(stages, name)
    }

    function At(name: string): Option<Container> {
      if name in containers then Some(containers[name]) else None
    }

    predicate Runs(name: string) {
      name in containers && containers[name].running
    }
  }

  predicate SameAt(name: string, a: Moment, b: Moment) {
    && a.At(name) == b.At(name) && (name in a.errored <==> name in b.errored)
    && a.CallsOf(name) == b.CallsOf(name) && a.StageAt(name) == b.StageAt(name)
  }

  /** From `a` to `b` nothing happened to any container but `name`, and nothing recorded was taken back. */
  ghost predicate OnlyTouches(name: string, a: Moment, b: Moment) {
    && (forall n :: n != name ==> SameAt(n, a, b))
    && (name in a.errored ==> name in b.errored)
    && a.CallsOf(name) <= b.CallsOf(name)
  }

  predicate SameButRunning(a: Option<Container>, b: Option<Container>) {
    && (a.Some? <==> b.Some?)
    && (a.Some? ==> b.value == a.value.(running := b.value.running))
  }

  /** What a stage promises about the container, compared with the start of the run. */
  predicate Consistent(stage: Stage, before: Option<Container>, after: Option<Container>) {
    && (HooksOnly(stage) ==> after == before)
    && (InPlace(stage) ==> SameButRunning(before, after))
  }

  /** The calls made for a container account for what became of it since the run began. */
  predicate Explained(start: Moment, m: Moment, name: string) {
    Consistent(m.StageAt(name), start.At(name), m.At(name))
  }

  /**
   The work on one container: its name, the moment the run began, the moment the work began, the log up to
   then, and the container's hooks.
   */
  datatype Scope = Scope(name: string, start: Moment, base: Moment, past: seq<Moment>, hooks: Hooks)

  ghost predicate InScope(s: Scope, m: Moment) {
    OnlyTouches(s.name, s.base, m) && Explained(s.start, m, s.name) && Tracked(m.calls, m.stages)
  }

  /** How an agent call ended: done, raised without effect, or raised after its effect. */
  datatype Fate = Done | Lost | Late

  /**
   What went wrong for a container: a lifecycle, inspection or image call raised although it could be
   done, a command of a hook failed, or a connect call raised although it could be done.
   */
  datatype Fault =
    | Needless(name: string)
    | BrokenHook(name: string, kind: HookKind)
    | Unplugged(name: string, network: string)

  /**
   `ref` is how docker resolves an image spec, so that two spellings of one reference share a tag;
   `isIp` and `accepts` are what the address test and the request validation let through.
   */
  class Host {
    const isIp: string -> bool
    const accepts: Config -> bool
    const ref: string -> string
    var containers: map<string, Container>
    /** From resolved references to image ids. */
    var tags: map<string, string>
    ghost var errored: set<string>
    ghost var calls: map<string, seq<Call>>
    ghost var stages: map<string, Stage>
    ghost var log: seq<Moment>
    ghost var faults: set<Fault>

    ghost function Now(): Moment
      reads `containers, `errored, `calls, `stages
    {
      Moment(containers, errored, calls, stages)
    }

    ghost function At(name: string): Option<Container>
      reads `containers, `errored, `calls, `stages
    {
      Now().At(name)
    }

    ghost function CallsOf(name: string): seq<Call>
      reads `containers, `errored, `calls, `stages
    {
      Now().CallsOf(name)
    }

    ghost function StageNow(name: string): Stage
      reads `containers, `errored, `calls, `stages
    {
      Now().StageAt(name)
    }

    /** Since the scope began, at every moment only its container has changed, as its calls explain. */
    ghost predicate Inside(s: Scope)
      reads `containers, `errored, `calls, `stages, `log
    {
      Grown(s, CallsOf(s.name)) && InScope(s, Now())
    }

    /** Moreover no hook is under way, and all were run as set. */
    ghost predicate Within(s: Scope)
      reads `containers, `errored, `calls, `stages, `log
    {
      Inside(s) && Told(CallsOf(s.name), s.hooks)
    }

    ghost predicate Grown(s: Scope, made: seq<Call>)
      reads `log
    {
      && s.past <= log
      && forall i :: |s.past| <= i < |log| ==> InScope(s, log[i]) && log[i].CallsOf(s.name) <= made
    }

    /** The work goes on in a scope that begins now. */
    lemma Reopened(s: Scope, mid: Scope)
      requires Within(s) && mid == Scope(s.name, s.start, Now(), log, s.hooks)
      ensures Within(mid)
    {
    }

    /** What was done in the later scope was done in the earlier one, and prolongs its log. */
    lemma Rejoined(s: Scope, mid: Scope)
      requires Within(mid) && mid == Scope(s.name, s.start, mid.base, mid.past, s.hooks)
      requires InScope(s, mid.base) && s.past <= mid.past
      requires forall i :: |s.past| <= i < |mid.past| ==>
                 InScope(s, mid.past[i]) && mid.past[i].CallsOf(s.name) <= mid.base.CallsOf(s.name)
      ensures Within(s) && mid.base.CallsOf(s.name) <= CallsOf(s.name)
    {
      JoinScopes(s, mid, Now());
      forall i | |s.past| <= i < |log| ensures InScope(s, log[i]) && log[i].CallsOf(s.name) <= CallsOf(s.name) {
        if i < |mid.past| {
          assert log[i] == mid.past[i];
        } else {
          JoinScopes(s, mid, log[i]);
        }
      }
    }

    lemma JoinScopes(s: Scope, mid: Scope, m: Moment)
      requires InScope(s, mid.base) && mid.name == s.name && mid.start == s.start && InScope(mid, m)
      ensures InScope(s, m) && mid.base.CallsOf(s.name) <= m.CallsOf(s.name)
    {
      forall n | n != s.name ensures SameAt(n, s.base, m) {
        assert SameAt(n, s.base, mid.base) && SameAt(n, mid.base, m);
      }
    }

    /** Starts a new record. */
    ghost method BeginRecord()
      modifies this`errored, this`calls, this`stages, this`log, this`faults
      ensures errored == {} && calls == map[] && stages == map[] && log == [] && faults == {}
    {
      errored, calls, stages, log, faults := {}, map[], map[], [], {};
    }

    /** Enters a call in the log; `was` are the containers before the call took effect. */
    ghost method Log(call: Call, s: Scope, was: map<string, Container>)
      requires Grown(s, CallsOf(s.name)) && OnlyTouches(s.name, s.base, Moment(was, errored, calls, stages))
      requires Tracked(calls, stages) && Consistent(Next(StageNow(s.name), call), s.start.At(s.name), At(s.name))
      requires forall n :: n != s.name ==> (n in was <==> n in containers) && (n in was ==> was[n] == containers[n])
      modifies this`calls, this`stages, this`log
      ensures Inside(s) && log == old(log) + [Now()]
      ensures !call.Hook? && !call.HooksDone? && Told(old(CallsOf(s.name)), s.hooks) ==>
                Told(CallsOf(s.name), s.hooks)
      ensures StageNow(s.name) == Next(old(StageNow(s.name)), call) && CallsOf(s.name) == old(CallsOf(s.name)) + [call]
    {
      ghost var before := Moment(was, errored, calls, stages);
      TrackedStep(calls, stages, s.name, call);
      stages, calls := stages[s.name := Next(StageNow(s.name), call)], calls[s.name := CallsOf(s.name) + [call]];
      ghost var now := Now();
      forall n | n != s.name ensures SameAt(n, s.base, now) {
        assert SameAt(n, s.base, before) && SameAt(n, before, now);
      }
      log := log + [now];
      if !call.Hook? && !call.HooksDone? && Told(old(CallsOf(s.name)), s.hooks) {
        ToldMore(old(CallsOf(s.name)), call, s.hooks);
      }
    }

    ghost method RecordError(s: Scope)
      requires Within(s)
      modifies this`errored
      ensures Within(s) && errored == old(errored) + {s.name}
    {
      ghost var before := Now();
      errored := errored + {s.name};
      forall n | n != s.name ensures SameAt(n, s.base, Now()) {
        assert SameAt(n, s.base, before);
      }
    }

    method Stop(name: string, ghost s: Scope) returns (r: Result<(), Error>)
      requires name == s.name && Within(s)
      modifies this`containers, this`calls, this`stages, this`log, this`faults
      ensures Within(s) && StageNow(name) == AfterStop(old(StageNow(name)))
      ensures CallsOf(name) == old(CallsOf(name)) + [Call.Stop(r.Success?)]
      ensures At(name) == old(At(name)) ||
              (old(At(name)).Some? && At(name) == Some(old(At(name)).value.(running := false)))
      ensures r.Success? ==> At(name).Some? && !At(name).value.running
      ensures r.Failure? ==> r.error == AgentFailed && (Needless(name) in faults || old(At(name)).None?)
      ensures old(faults) <= faults
    {
      var fate: Fate := *;
      faults := if fate == Done then faults else faults + {Needless(name)};
      ghost var was := containers;
      if name in containers && fate != Lost {
        containers := containers[name := containers[name].(running := false)];
        r := if fate == Done then Success(()) else Failure(AgentFailed);
      } else {
        r := Failure(AgentFailed);
      }
      Log(Call.Stop(r.Success?), s, was);
    }

    method Start(name: string, ghost s: Scope) returns (r: Result<(), Error>)
      requires name == s.name && Within(s)
      modifies this`containers, this`calls, this`stages, this`log, this`faults
      ensures Within(s) && StageNow(name) == AfterStart(old(StageNow(name)))
      ensures At(name) == old(At(name)) ||
              (old(At(name)).Some? && At(name) == Some(old(At(name)).value.(running := true)))
      ensures r.Success? ==> At(name).Some? && At(name).value.running
      ensures r.Failure? ==> r.error == AgentFailed && (Needless(name) in faults || old(At(name)).None?)
      ensures old(faults) <= faults
    {
      var fate: Fate := *;
      faults := if fate == Done then faults else faults + {Needless(name)};
      ghost var was := containers;
      if name in containers && fate != Lost {
        containers := containers[name := containers[name].(running := true)];
        r := if fate == Done then Success(()) else Failure(AgentFailed);
      } else {
        r := Failure(AgentFailed);
      }
      Log(Call.Start(r.Success?), s, was);
    }

    /** A running container is not removed. */
    method Remove(name: string, ghost s: Scope) returns (r: Result<(), Error>)
      requires name == s.name && Within(s)
      modifies this`containers, this`calls, this`stages, this`log, this`faults
      ensures Within(s) && StageNow(name) == AfterClearing(old(StageNow(name)))
      ensures CallsOf(name) == old(CallsOf(name)) + [Call.Remove(r.Success?)]
      ensures At(name) == old(At(name)) || (At(name) == None && old(At(name)).Some? && !old(At(name)).value.running)
      ensures r.Success? ==> old(At(name)).Some? && At(name) == None
      ensures r.Failure? ==>
                r.error == AgentFailed &&
                (Needless(name) in faults || old(At(name)).None? || old(At(name)).value.running)
      ensures old(faults) <= faults
    {
      var fate: Fate := *;
      faults := if fate == Done then faults else faults + {Needless(name)};
      ghost var was := containers;
      if name in containers && !containers[name].running && fate != Lost {
        containers := containers - {name};
        r := if fate == Done then Success(()) else Failure(AgentFailed);
      } else {
        r := Failure(AgentFailed);
      }
      Log(Call.Remove(r.Success?), s, was);
    }

    /** The image is the one the tag map holds for the requested spec at this moment. */
    method Create(cfg: Config, ghost s: Scope) returns (r: Result<Info, Error>)
      requires cfg.name == Some(s.name) && ref(cfg.image) in tags && Within(s)
      modifies this`containers, this`calls, this`stages, this`log, this`faults
      ensures Within(s) && StageNow(s.name) == AfterCreate(old(StageNow(s.name)))
      ensures At(s.name) == old(At(s.name)) ||
              (old(At(s.name)) == None &&
               At(s.name) == Some(Container(tags[ref(cfg.image)], cfg, false, CreatedNetworks(cfg.net.networks))))
      ensures r.Success? ==> old(At(s.name)) == None && At(s.name).Some? && r.value.name == s.name
      ensures r.Failure? ==> r.error == AgentFailed && (Needless(s.name) in faults || old(At(s.name)).Some?)
      ensures old(faults) <= faults
    {
      var c := Container(tags[ref(cfg.image)], cfg, false, CreatedNetworks(cfg.net.networks));
      var created := Make(cfg.name.value, c, s);
      if !created {
        return Failure(AgentFailed);
      }
      var info := Describe(cfg.name.value);
      return Success(info);
    }

    method Make(name: string, c: Container, ghost s: Scope) returns (ok: bool)
      requires name == s.name && Within(s)
      modifies this`containers, this`calls, this`stages, this`log, this`faults
      ensures Within(s) && StageNow(name) == AfterCreate(old(StageNow(name)))
      ensures At(name) == old(At(name)) || (old(At(name)) == None && At(name) == Some(c))
      ensures ok ==> old(At(name)) == None && At(name).Some?
      ensures !ok ==> Needless(name) in faults || old(At(name)).Some?
      ensures old(faults) <= faults
    {
      var fate: Fate := *;
      ghost var was := containers;
      ok := name !in containers && fate == Done;
      if name !in containers && fate != Lost {
        containers := containers[name := c];
      }
      assert !InPlace(Next(StageNow(name), Call.Create(ok)));
      Log(Call.Create(ok), s, was);
      faults := if fate == Done then faults else faults + {Needless(name)};
    }

    /** A forced disconnect; for a container that is gone it only clears a stale endpoint. */
    method Disconnect(network: string, name: string, ghost s: Scope) returns (r: Result<(), Error>)
      requires name == s.name && Within(s)
      modifies this`containers, this`calls, this`stages, this`log
      ensures Within(s) && StageNow(name) == AfterClearing(old(StageNow(name)))
      ensures CallsOf(name) == old(CallsOf(name)) + [Call.Detach(network, r.Success?)]
      ensures At(name) == old(At(name)) ||
              (old(At(name)).Some? &&
               At(name) == Some(old(At(name)).value.(networks := old(At(name)).value.networks - {network})))
      ensures r.Failure? ==> r.error == AgentFailed
    {
      var fate: Fate := *;
      ghost var was := containers;
      if name in containers && fate != Lost {
        containers := containers[name := containers[name].(networks := containers[name].networks - {network})];
      }
      r := if fate == Done then Success(()) else Failure(AgentFailed);
      Log(Call.Detach(network, r.Success?), s, was);
    }

    /** The allowlist is applied when the request is built; a refused command never reaches the agent. */
    method RunCommand(cmd: seq<string>, ghost s: Scope) returns (r: Result<(), Error>)
      requires Within(s)
      requires ConnectsOwn(isIp, cmd, s.name)
      modifies this`containers, this`calls, this`stages, this`log, this`faults
      ensures Within(s)
      ensures StageNow(s.name) == old(StageNow(s.name)) ||
              StageNow(s.name) == AfterConnect(old(StageNow(s.name)))
      ensures !Allowlisted(isIp, cmd) ==>
                r.Failure? && At(s.name) == old(At(s.name)) && CallsOf(s.name) == old(CallsOf(s.name))
      ensures At(s.name) == old(At(s.name)) ||
              (old(At(s.name)).Some? &&
               var c := old(At(s.name)).value;
               At(s.name) == Some(c.(networks := c.networks + {NetworkOf(cmd)})))
      ensures r.Success? ==> At(s.name).Some? && NetworkOf(cmd) in At(s.name).value.networks
      ensures r.Failure? ==> r.error == CommandFailed(cmd)
      ensures r.Failure? && Allowlisted(isIp, cmd) ==>
                Unplugged(s.name, NetworkOf(cmd)) in faults || old(At(s.name)).None?
      ensures old(faults) <= faults
    {
      var checked := CommandValidator.Validate(ConnectTable(isIp), cmd);
      if checked.Failure? {
        return Failure(CommandFailed(cmd));
      }
      var connection := ReadConnect(cmd).value;
      var connected := Connect(connection.network, connection.container, s);
      if !connected {
        return Failure(CommandFailed(cmd));
      }
      return Success(());
    }

    method Connect(network: string, name: string, ghost s: Scope) returns (ok: bool)
      requires name == s.name && Within(s)
      modifies this`containers, this`calls, this`stages, this`log, this`faults
      ensures Within(s) && StageNow(name) == AfterConnect(old(StageNow(name)))
      ensures At(name) == old(At(name)) ||
              (old(At(name)).Some? &&
               At(name) == Some(old(At(name)).value.(networks := old(At(name)).value.networks + {network})))
      ensures ok ==> At(name).Some? && network in At(name).value.networks
      ensures !ok ==> Unplugged(name, network) in faults || old(At(name)).None?
      ensures old(faults) <= faults
    {
      var fate: Fate := *;
      faults := if fate == Done then faults else faults + {Unplugged(name, network)};
      ghost var was := containers;
      ok := name in containers && fate == Done;
      if name in containers && fate != Lost {
        containers := containers[name := containers[name].(networks := containers[name].networks + {network})];
      }
      Log(Call.Connect(ok), s, was);
    }

    /** `docker exec`, which needs a running container and leaves the host as it is. */
    method Exec(name: string, kind: HookKind, command: string, ghost s: Scope) returns (r: Result<(), Error>)
      requires name == s.name && Inside(s)
      modifies this`calls, this`stages, this`log, this`faults
      ensures Inside(s) && StageNow(name) == AfterHook(old(StageNow(name)), kind, r.Success?)
      ensures CallsOf(name) == old(CallsOf(name)) + [Hook(kind, command, r.Success?)]
      ensures r.Failure? ==> r.error == HookFailed(kind)
      ensures faults == if r.Success? then old(faults) else old(faults) + {BrokenHook(name, kind)}
    {
      var fate: Fate := *;
      ghost var was := containers;
      if name in containers && containers[name].running && fate == Done {
        r := Success(());
      } else {
        faults := faults + {BrokenHook(name, kind)};
        r := Failure(HookFailed(kind));
      }
      Log(Call.Hook(kind, command, r.Success?), s, was);
    }

    /** Marks the end of a hook. */
    ghost method EndHooks(kind: HookKind, clean: bool, s: Scope)
      requires Inside(s)
      modifies this`calls, this`stages, this`log
      ensures Inside(s) && StageNow(s.name) == AfterHooks(old(StageNow(s.name)), kind, clean)
      ensures CallsOf(s.name) == old(CallsOf(s.name)) + [HooksDone(kind, clean)]
    {
      Log(HooksDone(kind, clean), s, containers);
    }

    method Exists(name: string) returns (r: Result<bool, Error>)
      modifies this`faults
      ensures r.Success? ==> r.value == (name in containers)
      ensures r.Failure? ==> r.error == AgentFailed && Needless(name) in faults
      ensures old(faults) <= faults
    {
      var fate: Fate := *;
      faults := if fate == Done then faults else faults + {Needless(name)};
      r := if fate == Done then Success(name in containers) else Failure(AgentFailed);
    }

    method Inspect(name: string) returns (r: Result<Info, Error>)
      modifies this`faults
      ensures r.Success? ==> name in containers && Describes(name, containers[name], r.value)
      ensures r.Failure? ==> r.error == AgentFailed && (Needless(name) in faults || name !in containers)
      ensures old(faults) <= faults
    {
      var fate: Fate := *;
      faults := if fate == Done then faults else faults + {Needless(name)};
      if name !in containers || fate != Done {
        return Failure(AgentFailed);
      }
      var info := Describe(name);
      return Success(info);
    }

    method Describe(name: string) returns (info: Info)
      requires name in containers
      ensures Describes(name, containers[name], info)
    {
      var c := containers[name];
      info := *;
      var networks: Attachments := [];
      var rest := c.networks;
      while rest != {}
        invariant rest <= c.networks
        invariant NetworkNames(networks) == c.networks - rest
        decreases rest
      {
        var n :| n in rest;
        var ep: Endpoint := *;
        AttachmentAdded(networks, (n, ep));
        networks := networks + [(n, ep)];
        rest := rest - {n};
      }
      info := info.(name := name, image := Some(c.image), running := c.running, networks := networks);
    }

    /** An image looked up by its id has that id. */
    method InspectImageById(id: string, ghost name: string) returns (r: Result<Image, Error>)
      modifies this`faults
      ensures r.Success? ==> r.value.id == id
      ensures r.Failure? ==> r.error == AgentFailed && Needless(name) in faults
      ensures old(faults) <= faults
    {
      var fate: Fate := *;
      faults := if fate == Done then faults else faults + {Needless(name)};
      var image: Image := *;
      r := if fate == Done then Success(image.(id := id)) else Failure(AgentFailed);
    }

    method InspectImageBySpec(spec: string, ghost name: string) returns (r: Result<Image, Error>)
      modifies this`faults
      ensures r.Success? ==> ref(spec) in tags && r.value.id == tags[ref(spec)]
      ensures r.Failure? ==> r.error == AgentFailed && (Needless(name) in faults || ref(spec) !in tags)
      ensures old(faults) <= faults
    {
      var fate: Fate := *;
      faults := if fate == Done then faults else faults + {Needless(name)};
      var image: Image := *;
      r := if ref(spec) in tags && fate == Done then Success(image.(id := tags[ref(spec)])) else Failure(AgentFailed);
    }

    /** The registry may answer with any image, also with different ones for two pulls of one spec. */
    method Pull(spec: string, ghost name: string) returns (r: Result<Image, Error>)
      modifies this`tags, this`faults
      ensures forall t :: t != ref(spec) ==> (t in tags <==> t in old(tags)) && (t in tags ==> tags[t] == old(tags)[t])
      ensures old(tags).Keys <= tags.Keys
      ensures r.Success? ==> ref(spec) in tags && tags[ref(spec)] == r.value.id
      ensures r.Failure? ==> r.error == AgentFailed && Needless(name) in faults
      ensures old(faults) <= faults
    {
      var fate: Fate := *;
      faults := if fate == Done then faults else faults + {Needless(name)};
      var image: Image := *;
      if fate != Lost {
        tags := tags[ref(spec) := image.id];
      }
      r := if fate == Done then Success(image) else Failure(AgentFailed);
    }

    method Tag(id: string, spec: string, ghost name: string) returns (r: Result<(), Error>)
      modifies this`tags, this`faults
      ensures tags == old(tags) || tags == old(tags)[ref(spec) := id]
      ensures r.Success? ==> tags == old(tags)[ref(spec) := id]
      ensures r.Failure? ==> r.error == TagFailed && Needless(name) in faults
      ensures old(faults) <= faults
    {
      var fate: Fate := *;
      faults := if fate == Done then faults else faults + {Needless(name)};
      if fate != Lost {
        tags := tags[ref(spec) := id];
      }
      r := if fate == Done then Success(()) else Failure(TagFailed);
    }
  }

  predicate Describes(name: string, c: Container, info: Info) {
    info.name == name && info.image == Some(c.image) && info.running == c.running
    && NetworkNames(info.networks) == c.networks
  }
}
