/**
 What the plan reads from container labels (backend/core/update_actions/update_actions_util.py,
 backend/core/container_util/is_protected_container.py, get_service_name.py).
 */
module Labels {
  import opened Strings
  import opened ContainerInfo

  const TUGTAINER_DEPENDS_ON_LABEL := "dev.quenary.tugtainer.depends_on"
  const TUGTAINER_PROTECTED_LABEL := "dev.quenary.tugtainer.protected"
  const DOCKER_COMPOSE_DEPENDS_ON_LABEL := "com.docker.compose.depends_on"
  const COMPOSE_SERVICE_LABEL := "com.docker.compose.service"
  const COMPOSE_PROJECT_LABEL := "com.docker.compose.project"
  const COMPOSE_FILES_LABEL := "com.docker.compose.project.config_files"

  function Get(labels: map<string, string>, key: string, default: string): string {
    if key in labels then labels[key] else default
  }

  predicate IsProtected(c: Info) {
    Lower(Get(c.labels, TUGTAINER_PROTECTED_LABEL, "false")) == "true"
  }

  function ServiceName(c: Info): string {
    Get(c.labels, COMPOSE_SERVICE_LABEL, "")
  }

  /** Project and files joined; empty when both are. */
  function ComposeId(c: Info): string {
    var (project, files) := (Get(c.labels, COMPOSE_PROJECT_LABEL, ""), Get(c.labels, COMPOSE_FILES_LABEL, ""));
    if project != "" || files != "" then project + ":" + files else ""
  }

  /** The name in one entry of a dependency label: what stands before the first colon, trimmed. */
  function EntryName(entry: string): string {
    Strip(Split(Strip(entry), ':')[0])
  }

  function LabelDependencies(labels: map<string, string>, key: string): set<string> {
    var entries := Split(Get(labels, key, ""), ',');
    set i | 0 <= i < |entries| && EntryName(entries[i]) != "" :: EntryName(entries[i])
  }

  method GetDependencies(c: Info, key: string) returns (dependencies: set<string>)
    ensures dependencies == LabelDependencies(c.labels, key)
  {
    dependencies := {};
    var text := Get(c.labels, key, "");
    var entries := Split(text, ',');
    if text == "" {
      assert entries == [""];
      return;
    }
    for i := 0 to |entries|
      invariant dependencies == set k | 0 <= k < i && EntryName(entries[k]) != "" :: EntryName(entries[k])
    {
      var name := Strip(Split(Strip(entries[i]), ':')[0]);
      if name != "" {
        dependencies := dependencies + {name};
      }
    }
  }

  /** A dependency name as an author may write it: trimmed, and free of the two separators. */
  predicate PlainName(name: string) {
    Trimmed(name) && !Has(name, ',') && !Has(name, ':')
  }

  /** An entry `name` or `name:condition:value`, with white space around it. */
  predicate EntryFor(entry: string, name: string, left: string, condition: string, right: string) {
    && Blank(left) && Blank(right) && PlainName(name)
    && (condition == "" || (condition[0] == ':' && !IsSpace(condition[|condition| - 1])))
    && entry == left + name + condition + right
  }

  lemma EntryRead(entry: string, name: string, left: string, condition: string, right: string)
    requires EntryFor(entry, name, left, condition, right)
    ensures EntryName(entry) == name
  {
    var core := name + condition;
    assert left + name + condition + right == left + core + right;
    assert Trimmed(core);
    StripPadded(left, core, right);
    if condition == "" {
      assert core == name;
      SplitNone(name, ':');
    } else {
      assert core == name + [':'] + condition[1..];
      SplitFirst(name, condition[1..], ':');
    }
    StripPadded("", name, "");
    assert "" + name + "" == name;
  }

  ghost predicate EntryOf(entry: string, name: string) {
    !Has(entry, ',') && exists left, condition, right :: EntryFor(entry, name, left, condition, right)
  }

  lemma EntryReads(entry: string, name: string)
    requires EntryOf(entry, name)
    ensures EntryName(entry) == name != ""
  {
    var left, condition, right :| EntryFor(entry, name, left, condition, right);
    EntryRead(entry, name, left, condition, right);
  }

  lemma EntriesRead(entries: seq<string>, names: seq<string>)
    requires |entries| == |names| > 0
    requires forall i :: 0 <= i < |entries| ==> EntryOf(entries[i], names[i])
    ensures Split(Join(entries, ','), ',') == entries
    ensures forall i :: 0 <= i < |entries| ==> EntryName(entries[i]) == names[i] != ""
  {
    forall i | 0 <= i < |entries| ensures !Has(entries[i], ',') && EntryName(entries[i]) == names[i] != "" {
      assert EntryOf(entries[i], names[i]);
      EntryReads(entries[i], names[i]);
    }
    SplitJoin(entries, ',');
  }

  /** A label written entry by entry is read back as exactly the names in it. */
  lemma LabelRoundTrip(entries: seq<string>, names: seq<string>, labels: map<string, string>, key: string)
    requires |entries| == |names| > 0
    requires forall i :: 0 <= i < |entries| ==> EntryOf(entries[i], names[i])
    ensures LabelDependencies(labels[key := Join(entries, ',')], key) == set i | 0 <= i < |names| :: names[i]
  {
    EntriesRead(entries, names);
    var read := LabelDependencies(labels[key := Join(entries, ',')], key);
    forall n ensures n in read <==> n in (set i | 0 <= i < |names| :: names[i]) {
      if n in (set i | 0 <= i < |names| :: names[i]) {
        var i :| 0 <= i < |names| && names[i] == n;
        assert EntryName(entries[i]) == n;
      }
    }
  }
}
