/**
 The create request for a recreated container (backend/core/container_util/container_config.py):
 entrypoint and command are kept only where they differ from the old image, empty keys are dropped,
 and labels the new image brings itself are subtracted.
 */
module ContainerConfig {
  import opened Errors
  import opened Wrappers
  import opened Strings
  import opened ContainerInfo
  import opened NetKwargs

  datatype Config = Config(
    image: string,
    name: Option<string>,
    entrypoint: Option<string>,
    command: Option<seq<string>>,
    workdir: Option<string>,
    labels: map<string, string>,
    settings: map<string, string>,
    net: NetArgs)

  function ToList(a: Argument): seq<string> {
    match a
    case Missing => []
    case Text(t) => if t == "" then [] else [t]
    case Words(ws) => ws
  }

  /** Entrypoint and command of the create request before empty keys are dropped. */
  function RewriteArgv(entry: seq<string>, cmd: seq<string>, imageEntry: seq<string>, imageCmd: seq<string>)
    : (Option<string>, Option<seq<string>>)
  {
    if entry != imageEntry || cmd != imageCmd then
      if entry != [] then (Some(entry[0]), Some(entry[1..] + cmd)) else (None, Some(cmd))
    else (None, None)
  }

  function DropEmptyText(t: Option<string>): Option<string> {
    if t.Some? && !Blank(t.value) then t else None
  }

  function DropEmptyList(l: Option<seq<string>>): Option<seq<string>> {
    if l.Some? && l.value != [] then l else None
  }

  function DropEmptyKeys(cfg: Config): Config {
    cfg.(name := DropEmptyText(cfg.name),
         entrypoint := DropEmptyText(cfg.entrypoint),
         command := DropEmptyList(cfg.command),
         workdir := DropEmptyText(cfg.workdir),
         settings := map k | k in cfg.settings && !Blank(cfg.settings[k]) :: cfg.settings[k])
  }

  predicate CliSafe(key: string) {
    key != "" && forall i :: 0 <= i < |key| ==> key[i] != ' ' && key[i] != '\t'
  }

  function ImageArgv(image: Option<Image>): (seq<string>, seq<string>) {
    if image.Some? then (ToList(image.value.entrypoint), ToList(image.value.cmd)) else ([], [])
  }

  /** The empty path reads as the current directory, which is not passed on. */
  function NormalizePath(path: string): Option<string> {
    if path == "" || path == "." then None else Some(path)
  }

  /** A working directory is passed on only where it differs from that of the image. */
  function CustomWorkdir(c: Info, image: Option<Image>): Option<string> {
    if image.Some? && image.value.workdir.Some? && image.value.workdir.value != c.workdir then NormalizePath(c.workdir)
    else None
  }

  /** The emitted request up to its network arguments. */
  function Captured(c: Info, image: Option<Image>, net: NetArgs): Config
    requires c.spec.Some?
  {
    var defaults := ImageArgv(image);
    var argv := RewriteArgv(ToList(c.entrypoint), ToList(c.cmd), defaults.0, defaults.1);
    DropEmptyKeys(Config(c.spec.value, Some(c.name), argv.0, argv.1, CustomWorkdir(c, image),
                         map k | k in c.labels && CliSafe(k) :: c.labels[k], c.settings, net))
  }

  /** The image is a required key, so a missing or blank one is refused; `accepts` validates everything else. */
  predicate Capturable(c: Info, image: Option<Image>, oldApi: bool, accepts: Config -> bool) {
    c.spec.Some? && !Blank(c.spec.value) && accepts(Captured(c, image, NetArgsOf(c, oldApi)))
  }

  /** Entrypoint and command, kept only where the pair differs from the image's. */
  method CustomArgv(c: Info, image: Option<Image>) returns (entrypoint: Option<string>, command: Option<seq<string>>)
    ensures (entrypoint, command) ==
            RewriteArgv(ToList(c.entrypoint), ToList(c.cmd), ImageArgv(image).0, ImageArgv(image).1)
  {
    entrypoint, command := None, None;
    var currentEntrypoint, currentCmd := ToList(c.entrypoint), ToList(c.cmd);
    var imageEntrypoint := if image.Some? then ToList(image.value.entrypoint) else [];
    var imageCmd := if image.Some? then ToList(image.value.cmd) else [];
    if currentEntrypoint != imageEntrypoint || currentCmd != imageCmd {
      if currentEntrypoint != [] {
        entrypoint := Some(currentEntrypoint[0]);
        command := Some(currentEntrypoint[1..] + currentCmd);
      } else {
        command := Some(currentCmd);
      }
    }
  }

  method GetContainerConfig(c: Info, image: Option<Image>, oldApi: bool, accepts: Config -> bool)
    returns (r: Result<(Config, seq<seq<string>>), Error>)
    ensures r.Success? <==> Capturable(c, image, oldApi, accepts)
    ensures r.Success? ==> r.value == (Captured(c, image, NetArgsOf(c, oldApi)), ConnectCommands(c))
    ensures r.Failure? ==> r.error == InvalidConfig
  {
    var net, commands := GetContainerNetKwargs(c, oldApi);
    var entrypoint, command := CustomArgv(c, image);
    var labels := map k | k in c.labels && CliSafe(k) :: c.labels[k];
    if c.spec.None? || Blank(c.spec.value) {
      return Failure(InvalidConfig);
    }
    var workdir := CustomWorkdir(c, image);
    var cfg := DropEmptyKeys(Config(c.spec.value, Some(c.name), entrypoint, command, workdir, labels, c.settings, net));
    assert cfg == Captured(c, image, net);
    if !accepts(cfg) {
      return Failure(InvalidConfig);
    }
    return Success((cfg, commands));
  }

  method DiffContainerConfigWithImage(cfg: Config, remote: Image, accepts: Config -> bool)
    returns (r: Result<Config, Error>)
    ensures r.Success? <==> accepts(Merged(cfg, remote))
    ensures r.Success? ==> r.value == Merged(cfg, remote)
    ensures r.Failure? ==> r.error == InvalidConfig
  {
    var merged := cfg.(labels := map k | k in cfg.labels && k !in remote.labels :: cfg.labels[k]);
    assert merged.labels == cfg.labels - remote.labels.Keys;
    merged := DropEmptyKeys(merged);
    if !accepts(merged) {
      return Failure(InvalidConfig);
    }
    return Success(merged);
  }

  function Merged(cfg: Config, remote: Image): Config {
    DropEmptyKeys(cfg.(labels := cfg.labels - remote.labels.Keys))
  }

  // ---------- What the created container runs ----------

  /** `docker create` with and without `--entrypoint`: giving it also discards the image's command. */
  function Argv(cfg: Config, image: Image): seq<string> {
    if cfg.entrypoint.Some? then
      [cfg.entrypoint.value] + (if cfg.command.Some? then cfg.command.value else [])
    else
      ToList(image.entrypoint) + (if cfg.command.Some? then cfg.command.value else ToList(image.cmd))
  }

  /** The container's own command line. */
  function OriginalArgv(c: Info): seq<string> {
    ToList(c.entrypoint) + ToList(c.cmd)
  }

  /** Whether the container's command line is other than the old image's defaults. */
  predicate Customised(c: Info, local: Option<Image>) {
    (ToList(c.entrypoint), ToList(c.cmd)) != ImageArgv(local)
  }

  /** When the command line comes through an update to the image `remote`. */
  predicate ArgvSurvives(c: Info, local: Option<Image>, remote: Image) {
    var entry, cmd := ToList(c.entrypoint), ToList(c.cmd);
    var newEntry, newCmd := ToList(remote.entrypoint), ToList(remote.cmd);
    if !Customised(c, local) then newEntry + newCmd == entry + cmd
    else if entry == [] then newEntry == [] && (cmd != [] || newCmd == [])
    else
      || !Blank(entry[0])
      || (entry[1..] + cmd != [] && newEntry == [entry[0]])
      || (entry[1..] + cmd == [] && newEntry + newCmd == entry)
  }

  /**
   The captured request on any image, as a rollback uses it on the old one: a customised command line
   with a non-blank entrypoint always survives, one that was the old image's default follows the image.
   */
  lemma CapturedArgvIff(c: Info, local: Option<Image>, image: Image, net: NetArgs)
    requires c.spec.Some?
    ensures Argv(Captured(c, local, net), image) == OriginalArgv(c) <==> ArgvSurvives(c, local, image)
  {
    var entry, cmd := ToList(c.entrypoint), ToList(c.cmd);
    var newEntry, newCmd := ToList(image.entrypoint), ToList(image.cmd);
    var argv := Argv(Captured(c, local, net), image);
    if Customised(c, local) {
      if entry == [] {
        assert argv == newEntry + (if cmd != [] then cmd else newCmd);
        assert argv == cmd && cmd != [] ==> |newEntry| == 0;
        assert newEntry == [] ==> newEntry + cmd == cmd;
      } else {
        var rest := entry[1..] + cmd;
        assert entry + cmd == [entry[0]] + rest;
        if Blank(entry[0]) {
          assert argv == newEntry + (if rest != [] then rest else newCmd);
          if rest != [] && argv == entry + cmd {
            assert |newEntry| == 1 && argv[0] == newEntry[0];
          }
          assert rest == [] ==> entry + cmd == entry;
        } else {
          assert argv == [entry[0]] + rest;
        }
      }
    }
  }

  /** The same holds of the merged request, through the second empty-key drop and the diff. */
  lemma ArgvAcrossUpdateIff(c: Info, local: Option<Image>, remote: Image, net: NetArgs, image: Image)
    requires c.spec.Some?
    ensures Argv(Merged(Captured(c, local, net), remote), image) == OriginalArgv(c) <==> ArgvSurvives(c, local, image)
  {
    CapturedArgvIff(c, local, image, net);
    assert Merged(Captured(c, local, net), remote).entrypoint == Captured(c, local, net).entrypoint;
    assert Merged(Captured(c, local, net), remote).command == Captured(c, local, net).command;
  }

  /**
   On its old image a container keeps its command line unless its entrypoint is missing or blank and
   was customised.
   */
  lemma ArgvKeptOnOldImage(c: Info, image: Image, net: NetArgs)
    requires c.spec.Some?
    requires (ToList(c.entrypoint) != [] && !Blank(ToList(c.entrypoint)[0])) || !Customised(c, Some(image))
    ensures Argv(Captured(c, Some(image), net), image) == OriginalArgv(c)
  {
    CapturedArgvIff(c, Some(image), image, net);
  }

  /** An emptied entrypoint cannot be expressed: the container runs the image's entrypoint. */
  lemma EmptyEntrypointLost(c: Info, local: Option<Image>, image: Image, net: NetArgs)
    requires c.spec.Some? && ToList(c.entrypoint) == [] && Customised(c, local) && ToList(image.entrypoint) != []
    ensures Argv(Captured(c, local, net), image) != OriginalArgv(c)
  {
    CapturedArgvIff(c, local, image, net);
  }

  // ---------- Working directory ----------

  /** `docker create` with and without `--workdir`. */
  function Workdir(cfg: Config, image: Image): string {
    if cfg.workdir.Some? then cfg.workdir.value else ImageWorkdir(image)
  }

  function ImageWorkdir(image: Image): string {
    if image.workdir.Some? then image.workdir.value else ""
  }

  /**
   After an update or a rollback the container has its own working directory exactly if that was
   customised and can be passed on, or the image has the same.
   */
  lemma WorkdirAcrossUpdateIff(c: Info, local: Option<Image>, remote: Image, net: NetArgs, image: Image)
    requires c.spec.Some?
    ensures Workdir(Captured(c, local, net), image) == c.workdir <==> WorkdirSurvives(c, local, image)
    ensures Workdir(Merged(Captured(c, local, net), remote), image) == c.workdir <==> WorkdirSurvives(c, local, image)
  {
    assert Captured(c, local, net).workdir == DropEmptyText(CustomWorkdir(c, local));
  }

  predicate WorkdirSurvives(c: Info, local: Option<Image>, image: Image) {
    || ImageWorkdir(image) == c.workdir
    || (local.Some? && local.value.workdir.Some? && local.value.workdir.value != c.workdir
        && c.workdir != "." && !Blank(c.workdir))
  }

  // ---------- The other fields ----------

  /** Some character of the value is not white space. */
  predicate Filled(value: string) {
    exists i :: 0 <= i < |value| && !IsSpace(value[i])
  }

  /** Docker's client takes a label whose key is not empty and free of blanks and tabs. */
  predicate Passable(key: string) {
    key != "" && ' ' !in key && '\t' !in key
  }

  /** The captured request has every field that is filled and every label the client takes, with their values. */
  lemma CapturedFields(c: Info, local: Option<Image>, net: NetArgs, k: string)
    requires c.spec.Some?
    ensures var cfg := Captured(c, local, net);
            && cfg.image == c.spec.value && cfg.net == net && (Filled(c.name) ==> cfg.name == Some(c.name))
            && (k in cfg.settings <==> k in c.settings && Filled(c.settings[k]))
            && (k in cfg.settings ==> cfg.settings[k] == c.settings[k])
            && (k in cfg.labels <==> k in c.labels && Passable(k))
            && (k in cfg.labels ==> cfg.labels[k] == c.labels[k])
  {
    assert CliSafe(k) <==> Passable(k);
    if k in c.settings {
      assert Filled(c.settings[k]) <==> !Blank(c.settings[k]);
    }
  }

  /** The merge takes away the labels the new image defines and nothing else. */
  lemma MergedFields(c: Info, local: Option<Image>, remote: Image, net: NetArgs, k: string)
    requires c.spec.Some?
    ensures var cfg := Merged(Captured(c, local, net), remote);
            && cfg.image == c.spec.value && cfg.net == net && (Filled(c.name) ==> cfg.name == Some(c.name))
            && (k in cfg.settings <==> k in c.settings && Filled(c.settings[k]))
            && (k in cfg.settings ==> cfg.settings[k] == c.settings[k])
            && (k in cfg.labels <==> k in c.labels && Passable(k) && k !in remote.labels)
            && (k in cfg.labels ==> cfg.labels[k] == c.labels[k])
  {
    CapturedFields(c, local, net, k);
    assert Filled(c.name) <==> !Blank(c.name);
    if k in c.settings {
      assert Filled(c.settings[k]) <==> !Blank(c.settings[k]);
    }
  }

  /** An entrypoint of several words is split: the first one is the entrypoint, the others start the command. */
  lemma EntrypointSplit(c: Info, local: Image, net: NetArgs, first: string, others: seq<string>, text: string)
    requires c.spec.Some? && c.entrypoint == Words([first] + others) && c.cmd == Argument.Text(text)
    requires Filled(first) && text != "" && local.entrypoint != c.entrypoint && local.entrypoint.Words?
    ensures Captured(c, Some(local), net).entrypoint == Some(first)
    ensures Captured(c, Some(local), net).command == Some(others + [text])
  {
    var entry := [first] + others;
    assert entry[0] == first && entry[1..] == others;
  }

  // ---------- Labels ----------

  /** Docker overlays the labels of the request on those of the image. */
  function EffectiveLabels(cfg: Config, image: Image): map<string, string> {
    image.labels + cfg.labels
  }

  /** After an update the new image's labels win: an override is kept only where the image defines nothing. */
  lemma ImageLabelsWin(cfg: Config, remote: Image)
    ensures EffectiveLabels(Merged(cfg, remote), remote) == cfg.labels + remote.labels
  {
    var merged := Merged(cfg, remote);
    assert merged.labels == cfg.labels - remote.labels.Keys;
    assert remote.labels + merged.labels == cfg.labels + remote.labels;
  }
}
