/**
 Network arguments for a recreated container (backend/core/container_util/get_container_net_kwargs.py):
 one primary network goes to `docker create`, every other attachment becomes a `network connect`
 command that must pass the allowlist of CommandValidator before an agent runs it.
 */
module NetKwargs {
  import opened Wrappers
  import opened Strings
  import opened ContainerInfo
  import opened CommandValidator

  // ---------- The registered command ----------

  predicate AlphaNumeric(c: char) {
    'a' <= c <= 'z' || 'A' <= c <= 'Z' || '0' <= c <= '9'
  }

  predicate NameShape(s: string, limit: nat) {
    && 0 < |s| <= limit
    && AlphaNumeric(s[0])
    && forall i :: 0 < i < |s| ==> AlphaNumeric(s[i]) || s[i] in "_.-"
  }

  predicate ValidDockerName(s: string) {
    NameShape(s, 128)
  }

  /** Matched with `match` and a final `$`, so one trailing newline is let through. */
  predicate ValidAlias(s: string) {
    NameShape(s, 63) || (s != "" && s[|s| - 1] == '\n' && NameShape(s[..|s| - 1], 63))
  }

  const CONNECT := ["network", "connect"]

  /** `isIp` stands for the standard library's address parser. */
  function ConnectSchema(isIp: string -> bool): Schema {
    Schema(
      map["--alias" := s => ValidAlias(s), "--ip" := isIp, "--ip6" := isIp],
      [s => ValidDockerName(s), s => ValidDockerName(s)])
  }

  function ConnectTable(isIp: string -> bool): Table {
    map[CONNECT := ConnectSchema(isIp)]
  }

  /** What the agent is asked to run. */
  ghost predicate Allowlisted(isIp: string -> bool, cmd: seq<string>) {
    Accepted(ConnectTable(isIp), cmd)
  }

  // ---------- Generated commands ----------

  function FlagPairs(flag: string, values: seq<string>): seq<Pair> {
    seq(|values|, i requires 0 <= i < |values| => Pair(flag, values[i]))
  }

  function AddressPairs(ipam: Option<Ipam>): seq<Pair> {
    match ipam
    case None => []
    case Some(a) =>
      (if a.ipv4 != "" then [Pair("--ip", a.ipv4)] else []) + (if a.ipv6 != "" then [Pair("--ip6", a.ipv6)] else [])
  }

  function ConnectPairs(ep: Endpoint): seq<Pair> {
    FlagPairs("--alias", ep.aliases) + FlagPairs("--link", ep.links) + AddressPairs(ep.ipam)
  }

  function ConnectCommand(net: string, ep: Endpoint, name: string): seq<string> {
    CONNECT + Flatten(ConnectPairs(ep)) + [net, name]
  }

  /** The network the container is created with: its network mode while that is still attached. */
  function MainKey(c: Info): string
    requires c.networks != []
  {
    if c.networkMode in NetworkNames(c.networks) then c.networkMode else c.networks[0].0
  }

  function CommandsExcept(networks: Attachments, main: string, name: string): seq<seq<string>> {
    if networks == [] then []
    else
      var last := networks[|networks| - 1];
      CommandsExcept(networks[..|networks| - 1], main, name)
      + (if last.0 == main then [] else [ConnectCommand(last.0, last.1, name)])
  }

  function ConnectCommands(c: Info): seq<seq<string>> {
    if c.networks == [] then [] else CommandsExcept(c.networks, MainKey(c), c.name)
  }

  /** The network part of a create request. */
  datatype NetArgs = NetArgs(
    networks: seq<string>,
    aliases: seq<string>,
    link: seq<string>,
    ip: string,
    ip6: string,
    mac: string,
    dns: Dns,
    hostname: string,
    publish: seq<string>,
    publishAll: bool)

  const NO_DNS := Dns([], [], [])

  predicate DetachedMode(mode: string) {
    mode == "host" || mode == "none" || "container:" <= mode
  }

  /** What `docker create` attaches: nothing for a shared or absent stack, the default bridge when unnamed. */
  function CreatedNetworks(networks: seq<string>): set<string> {
    if networks == [] then {"bridge"}
    else set n | n in networks && !("container:" <= n)
  }

  lemma {:induction false} FlattenAppend(a: seq<Pair>, b: seq<Pair>)
    ensures Flatten(a + b) == Flatten(a) + Flatten(b)
  {
    if a == [] {
      assert a + b == b;
    } else {
      assert (a + b)[1..] == a[1..] + b;
      FlattenAppend(a[1..], b);
    }
  }

  function AddressFlag(flag: string, address: string): seq<string> {
    if address != "" then [flag, address] else []
  }

  lemma FlattenAddresses(ipam: Option<Ipam>)
    ensures Flatten(AddressPairs(ipam)) ==
            if ipam.Some? then AddressFlag("--ip", ipam.value.ipv4) + AddressFlag("--ip6", ipam.value.ipv6) else []
  {
    if ipam.Some? {
      var four := if ipam.value.ipv4 != "" then [Pair("--ip", ipam.value.ipv4)] else [];
      var six := if ipam.value.ipv6 != "" then [Pair("--ip6", ipam.value.ipv6)] else [];
      FlattenAppend(four, six);
      assert four != [] ==> four[1..] == [];
      assert six != [] ==> six[1..] == [];
    }
  }

  lemma CommandParts(net: string, ep: Endpoint, name: string)
    ensures ConnectCommand(net, ep, name) ==
            var flags := CONNECT + Flatten(FlagPairs("--alias", ep.aliases) + FlagPairs("--link", ep.links));
            if ep.ipam.None? then flags + [net, name]
            else
              flags + AddressFlag("--ip", ep.ipam.value.ipv4) + AddressFlag("--ip6", ep.ipam.value.ipv6) + [net, name]
  {
    FlattenAppend(FlagPairs("--alias", ep.aliases) + FlagPairs("--link", ep.links), AddressPairs(ep.ipam));
    FlattenAddresses(ep.ipam);
  }

  /** One more flag and value at the end of a command. */
  lemma FlagAppended(head: seq<string>, pairs: seq<Pair>, flag: string, values: seq<string>, i: nat)
    requires i < |values|
    ensures head + Flatten(pairs + FlagPairs(flag, values[..i])) + [flag, values[i]] ==
            head + Flatten(pairs + FlagPairs(flag, values[..i + 1]))
  {
    var p := Pair(flag, values[i]);
    assert pairs + FlagPairs(flag, values[..i + 1]) == (pairs + FlagPairs(flag, values[..i])) + [p];
    FlattenAppend(pairs + FlagPairs(flag, values[..i]), [p]);
    assert Flatten([p]) == [p.flag, p.value] + Flatten([p][1..]);
  }

  method EndpointCommand(net: string, ep: Endpoint, name: string) returns (cmd: seq<string>)
    ensures cmd == ConnectCommand(net, ep, name)
  {
    cmd := ["network", "connect"];
    assert cmd == CONNECT + Flatten([] + FlagPairs("--alias", ep.aliases[..0]));
    for i := 0 to |ep.aliases|
      invariant cmd == CONNECT + Flatten([] + FlagPairs("--alias", ep.aliases[..i]))
    {
      FlagAppended(CONNECT, [], "--alias", ep.aliases, i);
      cmd := cmd + ["--alias", ep.aliases[i]];
    }
    ghost var pairs := FlagPairs("--alias", ep.aliases);
    assert [] + FlagPairs("--alias", ep.aliases[..|ep.aliases|]) == pairs;
    assert pairs + FlagPairs("--link", ep.links[..0]) == pairs;
    for i := 0 to |ep.links|
      invariant cmd == CONNECT + Flatten(pairs + FlagPairs("--link", ep.links[..i]))
    {
      FlagAppended(CONNECT, pairs, "--link", ep.links, i);
      cmd := cmd + ["--link", ep.links[i]];
    }
    assert ep.links[..|ep.links|] == ep.links;
    CommandParts(net, ep, name);
    if ep.ipam.Some? {
      if ep.ipam.value.ipv4 != "" {
        cmd := cmd + ["--ip", ep.ipam.value.ipv4];
      }
      if ep.ipam.value.ipv6 != "" {
        cmd := cmd + ["--ip6", ep.ipam.value.ipv6];
      }
    }
    cmd := cmd + [net, name];
  }

  /** The first address any attachment with static addresses supplies, after the main one had its say. */
  function MacAfter(networks: Attachments, main: string, mac: string): string {
    if networks == [] then mac
    else
      var last, before := networks[|networks| - 1], MacAfter(networks[..|networks| - 1], main, mac);
      if last.0 != main && last.1.ipam.Some? && before == "" then last.1.mac else before
  }

  /** The endpoint of an attached network. */
  function EndpointOf(networks: Attachments, net: string): Endpoint {
    if networks == [] then Endpoint([], [], None, "")
    else if networks[0].0 == net then networks[0].1
    else EndpointOf(networks[1..], net)
  }

  /** A hostname that is part of the container's id was generated and is not kept. */
  function OwnHostname(c: Info): string {
    if Contains(c.id, c.hostname) then "" else c.hostname
  }

  /** What does not depend on the attachments. */
  function BaseArgs(c: Info): NetArgs {
    NetArgs([], [], c.links, "", "", "", c.dns, OwnHostname(c), c.publish, c.publishAll)
  }

  /** What the main attachment supplies. */
  function MainArgs(c: Info, main: string, ep: Endpoint): NetArgs {
    var args := BaseArgs(c).(networks := [main], aliases := ep.aliases,
                             link := if ep.links != [] then ep.links else c.links);
    if ep.ipam.Some? then
      args.(ip := ep.ipam.value.ipv4, ip6 := ep.ipam.value.ipv6, mac := if ep.mac != "" then ep.mac else c.mac)
    else args
  }

  /** Without attachments the network mode stands in. */
  function ModeNetworks(c: Info): seq<string> {
    if c.networkMode != "" then [c.networkMode] else []
  }

  /** Before unsupported values are removed. */
  function FullArgs(c: Info): NetArgs {
    if c.networks != [] then
      var main := MainArgs(c, MainKey(c), EndpointOf(c.networks, MainKey(c)));
      main.(mac := MacAfter(c.networks, MainKey(c), main.mac))
    else
      BaseArgs(c).(networks := ModeNetworks(c))
  }

  /** A container without a network stack of its own keeps nothing but the mode. */
  function Supported(mode: string, args: NetArgs): NetArgs {
    if DetachedMode(mode) then NetArgs(args.networks, [], [], "", "", "", NO_DNS, "", [], false) else args
  }

  function NetArgsOf(c: Info, oldApi: bool): NetArgs {
    var args := Supported(c.networkMode, FullArgs(c));
    if oldApi then args.(mac := "") else args
  }

  /** The attachments as a dictionary, read at an attached network. */
  method FindEndpoint(networks: Attachments, net: string) returns (ep: Endpoint)
    requires Attached(networks, net)
    ensures ep == EndpointOf(networks, net)
  {
    var m := 0;
    while networks[m].0 != net
      invariant 0 <= m < |networks|
      invariant exists k :: m <= k < |networks| && networks[k].0 == net
      invariant EndpointOf(networks, net) == EndpointOf(networks[m..], net)
      decreases |networks| - m
    {
      m := m + 1;
    }
    ep := networks[m].1;
  }

  /** The loop over the attachments other than the main one. */
  method ConnectOthers(networks: Attachments, main: string, name: string, mainMac: string)
    returns (commands: seq<seq<string>>, mac: string)
    ensures commands == CommandsExcept(networks, main, name) && mac == MacAfter(networks, main, mainMac)
  {
    commands, mac := [], mainMac;
    for i := 0 to |networks|
      invariant commands == CommandsExcept(networks[..i], main, name) && mac == MacAfter(networks[..i], main, mainMac)
    {
      assert networks[..i + 1][..i] == networks[..i];
      if networks[i].0 != main {
        var cmd := EndpointCommand(networks[i].0, networks[i].1, name);
        if networks[i].1.ipam.Some? && mac == "" {
          mac := networks[i].1.mac;
        }
        commands := commands + [cmd];
      }
    }
    assert networks[..|networks|] == networks;
  }

  method GetContainerNetKwargs(c: Info, oldApi: bool) returns (args: NetArgs, commands: seq<seq<string>>)
    ensures args == NetArgsOf(c, oldApi) && commands == ConnectCommands(c)
  {
    commands := [];
    args := NetArgs([], [], c.links, "", "", "", c.dns, c.hostname, c.publish, c.publishAll);
    if c.networks != [] {
      var main := MainKey(c);
      var ep := FindEndpoint(c.networks, main);
      args := args.(networks := [main], aliases := ep.aliases, link := if ep.links != [] then ep.links else args.link);
      if ep.ipam.Some? {
        args := args.(ip := ep.ipam.value.ipv4, ip6 := ep.ipam.value.ipv6,
                      mac := if ep.mac != "" then ep.mac else c.mac);
      }
      var mac;
      commands, mac := ConnectOthers(c.networks, main, c.name, args.mac);
      args := args.(mac := mac);
    } else if c.networkMode != "" {
      args := args.(networks := [c.networkMode]);
    }
    assert args == FullArgs(c).(hostname := c.hostname);
    if args.hostname != "" && Contains(c.id, args.hostname) {
      args := args.(hostname := "");
    }
    if DetachedMode(c.networkMode) {
      args := NetArgs(args.networks, [], [], "", "", "", NO_DNS, "", [], false);
    }
    if oldApi {
      args := args.(mac := "");
    }
  }

  lemma {:induction false} EndpointFound(networks: Attachments, a: (string, Endpoint))
    requires a in networks && DistinctNetworks(networks)
    ensures EndpointOf(networks, a.0) == a.1
  {
    var i :| 0 <= i < |networks| && networks[i] == a;
    if i > 0 {
      assert networks[1..][i - 1] == a;
      EndpointFound(networks[1..], a);
    }
  }

  /** The request's own settings are those of the attachment it is created on, and of no other. */
  lemma MainAttachmentKept(c: Info, a: (string, Endpoint))
    requires a in c.networks && a.0 == MainKey(c) && DistinctNetworks(c.networks) && !DetachedMode(c.networkMode)
    ensures var args := NetArgsOf(c, false);
            && args.networks == [a.0] && args.aliases == a.1.aliases
            && args.link == (if a.1.links != [] then a.1.links else c.links)
            && (a.1.ipam.Some? ==> args.ip == a.1.ipam.value.ipv4 && args.ip6 == a.1.ipam.value.ipv6)
            && (a.1.ipam.None? ==> args.ip == "" && args.ip6 == "")
            && NetArgsOf(c, true) == args.(mac := "")
  {
    EndpointFound(c.networks, a);
  }

  /**
   What is sent beside the attachments: nothing for a container without a network stack of its own, else
   name resolution and ports as they are and the hostname unless it is part of the container's id.
   */
  lemma OtherArgsKept(c: Info, oldApi: bool)
    ensures var args := NetArgsOf(c, oldApi);
            if c.networkMode == "host" || c.networkMode == "none" || "container:" <= c.networkMode then
              && args.dns == Dns([], [], []) && args.hostname == "" && args.publish == [] && !args.publishAll
              && args.aliases == [] && args.link == [] && args.ip == "" && args.ip6 == "" && args.mac == ""
            else
              && args.dns == c.dns && args.publish == c.publish && args.publishAll == c.publishAll
              && args.hostname == if Embeds(c.id, c.hostname) then "" else c.hostname
  {
    ContainsIff(c.id, c.hostname);
  }

  /** The network a container is created with: its mode's if attached, else the first one, else the mode itself. */
  lemma PrimaryNetwork(c: Info, oldApi: bool)
    ensures NetArgsOf(c, oldApi).networks ==
            if exists i :: 0 <= i < |c.networks| && c.networks[i].0 == c.networkMode then [c.networkMode]
            else if c.networks != [] then [c.networks[0].0]
            else if c.networkMode != "" then [c.networkMode]
            else []
  {
  }

  /** A connect command as it is typed, with every kind of option. */
  lemma CommandTyped()
    ensures var ep := Endpoint(["web", "www"], ["db:data"], Some(Ipam("10.0.0.2", "fd00::2")), "");
            ConnectCommand("app", ep, "site") ==
            ["network", "connect", "--alias", "web", "--alias", "www", "--link", "db:data",
             "--ip", "10.0.0.2", "--ip6", "fd00::2", "app", "site"]
  {
    var ep := Endpoint(["web", "www"], ["db:data"], Some(Ipam("10.0.0.2", "fd00::2")), "");
    CommandParts("app", ep, "site");
    var alias, link := FlagPairs("--alias", ep.aliases), FlagPairs("--link", ep.links);
    assert alias == [Pair("--alias", "web"), Pair("--alias", "www")] && link == [Pair("--link", "db:data")];
    var pairs := alias + link;
    assert pairs[1..] == [Pair("--alias", "www"), Pair("--link", "db:data")];
    assert pairs[1..][1..] == [Pair("--link", "db:data")] && pairs[1..][1..][1..] == [];
    assert Flatten(pairs[1..][1..]) == ["--link", "db:data"] + Flatten([]);
    assert Flatten(pairs[1..]) == ["--alias", "www"] + Flatten(pairs[1..][1..]);
    assert Flatten(pairs) == ["--alias", "web"] + Flatten(pairs[1..]);
    assert Flatten(pairs) == ["--alias", "web", "--alias", "www", "--link", "db:data"];
  }

  /** The MAC address the primary attachment has a claim to: with static addresses its own, else the container's. */
  function OwnMac(c: Info): string
    requires c.networks != []
  {
    var ep := EndpointOf(c.networks, MainKey(c));
    if ep.ipam.None? then "" else if ep.mac != "" then ep.mac else c.mac
  }

  /** Another attachment with static addresses and a MAC address. */
  predicate ForeignMac(networks: Attachments, main: string, i: nat)
    requires i < |networks|
  {
    networks[i].0 != main && networks[i].1.ipam.Some? && networks[i].1.mac != ""
  }

  lemma {:induction false} MacFound(networks: Attachments, main: string, mac: string)
    ensures mac != "" ==> MacAfter(networks, main, mac) == mac
    ensures mac == "" && (forall i :: 0 <= i < |networks| ==> !ForeignMac(networks, main, i)) ==>
              MacAfter(networks, main, mac) == ""
  {
    if networks != [] {
      var front, last := networks[..|networks| - 1], networks[|networks| - 1];
      assert networks == front + [last];
      MacFound(front, main, mac);
      assert forall i :: 0 <= i < |front| ==> ForeignMac(front, main, i) == ForeignMac(networks, main, i);
      assert ForeignMac(networks, main, |front|) || last.0 == main || last.1.ipam.None? || last.1.mac == "";
    }
  }

  /** The first such attachment. */
  predicate FirstForeign(networks: Attachments, main: string, i: nat)
    requires i < |networks|
  {
    ForeignMac(networks, main, i) && forall j :: 0 <= j < i ==> !ForeignMac(networks, main, j)
  }

  lemma {:induction false} FirstForeignMac(networks: Attachments, main: string, i: nat)
    requires i < |networks| && FirstForeign(networks, main, i)
    ensures MacAfter(networks, main, "") == networks[i].1.mac
  {
    var front, last := networks[..|networks| - 1], networks[|networks| - 1];
    assert networks == front + [last];
    assert forall j :: 0 <= j < |front| ==> ForeignMac(front, main, j) == ForeignMac(networks, main, j);
    if i < |front| {
      FirstForeignMac(front, main, i);
    } else {
      MacFound(front, main, "");
    }
  }

  /**
   Which MAC address is sent: the primary attachment's own, or if it has none the first one of another
   attachment with static addresses, or none.
   */
  lemma MacSent(c: Info)
    requires c.networks != [] && !DetachedMode(c.networkMode)
    ensures OwnMac(c) != "" ==> NetArgsOf(c, false).mac == OwnMac(c)
    ensures OwnMac(c) == "" ==> forall i :: 0 <= i < |c.networks| && FirstForeign(c.networks, MainKey(c), i) ==>
                                  NetArgsOf(c, false).mac == c.networks[i].1.mac
    ensures OwnMac(c) == "" && (forall i :: 0 <= i < |c.networks| ==> !ForeignMac(c.networks, MainKey(c), i)) ==>
              NetArgsOf(c, false).mac == ""
  {
    MacFound(c.networks, MainKey(c), OwnMac(c));
    forall i | 0 <= i < |c.networks| && FirstForeign(c.networks, MainKey(c), i)
      ensures MacAfter(c.networks, MainKey(c), "") == c.networks[i].1.mac
    {
      FirstForeignMac(c.networks, MainKey(c), i);
    }
  }

  lemma FindFirstForeign(networks: Attachments, main: string, i: nat) returns (first: nat)
    requires i < |networks| && ForeignMac(networks, main, i)
    ensures first <= i && FirstForeign(networks, main, first)
  {
    first := 0;
    while !ForeignMac(networks, main, first)
      invariant first <= i && forall j :: 0 <= j < first ==> !ForeignMac(networks, main, j)
      decreases i - first
    {
      first := first + 1;
    }
  }

  /**
   The primary attachment is sent another one's MAC address if and only if it has none of its own and
   such an attachment exists.
   */
  lemma ForeignMacSentIff(c: Info)
    requires c.networks != [] && !DetachedMode(c.networkMode)
    ensures NetArgsOf(c, false).mac != OwnMac(c) <==>
            OwnMac(c) == "" && exists i :: 0 <= i < |c.networks| && ForeignMac(c.networks, MainKey(c), i)
  {
    MacSent(c);
    if i :| 0 <= i < |c.networks| && ForeignMac(c.networks, MainKey(c), i) {
      var first := FindFirstForeign(c.networks, MainKey(c), i);
      assert c.networks[first].1.mac != "";
    }
  }

  /** A MAC address is never sent to an old API or for a container without a network stack of its own. */
  lemma NoMacSent(c: Info)
    ensures NetArgsOf(c, true).mac == ""
    ensures DetachedMode(c.networkMode) || c.networks == [] ==> NetArgsOf(c, false).mac == ""
  {
  }

  /** Of two attachments the primary one has no MAC address of its own and gets the other's. */
  lemma MacMoved(c: Info, a: (string, Endpoint), b: (string, Endpoint))
    requires c.networks == [a, b] && a.0 != b.0 && MainKey(c) == a.0 && !DetachedMode(c.networkMode)
    requires a.1.ipam.None? || (a.1.mac == "" && c.mac == "")
    requires b.1.ipam.Some?
    ensures NetArgsOf(c, false).networks == [a.0] && NetArgsOf(c, false).mac == b.1.mac
  {
    MacSent(c);
    assert !ForeignMac(c.networks, a.0, 0);
    assert b.1.mac != "" ==> ForeignMac(c.networks, a.0, 1);
  }

  /**
   A container that is only created, without its connect commands, is on exactly its old networks if
   and only if it had one.
   */
  lemma CreatedOnPrimary(c: Info, oldApi: bool)
    requires c.networks != [] && DistinctNetworks(c.networks) && !("container:" <= MainKey(c))
    ensures CreatedNetworks(NetArgsOf(c, oldApi).networks) == {MainKey(c)}
    ensures CreatedNetworks(NetArgsOf(c, oldApi).networks) == NetworkNames(c.networks) <==> |c.networks| == 1
  {
    var created := CreatedNetworks(NetArgsOf(c, oldApi).networks);
    if |c.networks| > 1 {
      assert c.networks[0].0 in NetworkNames(c.networks) && c.networks[1].0 in NetworkNames(c.networks);
      assert c.networks[0].0 != c.networks[1].0;
    }
  }

  /** Two networks, of which the creation keeps one. */
  lemma SecondNetworkLost(c: Info, ep: Endpoint)
    requires c.networks == [("backend", ep), ("frontend", ep)] && c.networkMode == "frontend"
    ensures CreatedNetworks(NetArgsOf(c, false).networks) == {"frontend"}
    ensures NetworkNames(c.networks) == {"backend", "frontend"}
  {
    assert "frontend"[0] != "container:"[0];
    assert c.networks[0].0 == "backend" && c.networks[1].0 == "frontend";
    CreatedOnPrimary(c, false);
  }

  // ---------- Generator and validator agree ----------

  /** What the allowlist asks of one attachment. */
  predicate Connectable(isIp: string -> bool, net: string, ep: Endpoint, name: string) {
    && ep.links == []
    && (forall i :: 0 <= i < |ep.aliases| ==> ValidAlias(ep.aliases[i]))
    && (ep.ipam.Some? && ep.ipam.value.ipv4 != "" ==> isIp(ep.ipam.value.ipv4))
    && (ep.ipam.Some? && ep.ipam.value.ipv6 != "" ==> isIp(ep.ipam.value.ipv6))
    && ValidDockerName(net) && ValidDockerName(name)
  }

  lemma PairsAllowedIff(isIp: string -> bool, ep: Endpoint)
    ensures (forall i :: 0 <= i < |ConnectPairs(ep)| ==> PairAllowed(ConnectSchema(isIp), ConnectPairs(ep)[i])) <==>
            && ep.links == []
            && (forall i :: 0 <= i < |ep.aliases| ==> ValidAlias(ep.aliases[i]))
            && (ep.ipam.Some? && ep.ipam.value.ipv4 != "" ==> isIp(ep.ipam.value.ipv4))
            && (ep.ipam.Some? && ep.ipam.value.ipv6 != "" ==> isIp(ep.ipam.value.ipv6))
    ensures forall i :: 0 <= i < |ConnectPairs(ep)| ==> IsFlag(ConnectPairs(ep)[i].flag)
  {
    var pairs := ConnectPairs(ep);
    var (a, l) := (|ep.aliases|, |ep.links|);
    var schema := ConnectSchema(isIp);
    assert "--link" !in schema.flags;
    assert forall i :: 0 <= i < a ==> pairs[i] == Pair("--alias", ep.aliases[i]);
    assert forall i :: 0 <= i < l ==> pairs[a + i] == Pair("--link", ep.links[i]);
    assert forall i :: a + l <= i < |pairs| ==> pairs[i] == AddressPairs(ep.ipam)[i - a - l];
    var addresses := AddressPairs(ep.ipam);
    assert (forall i :: 0 <= i < |addresses| ==> PairAllowed(schema, addresses[i])) <==>
           && (ep.ipam.Some? && ep.ipam.value.ipv4 != "" ==> isIp(ep.ipam.value.ipv4))
           && (ep.ipam.Some? && ep.ipam.value.ipv6 != "" ==> isIp(ep.ipam.value.ipv6)) by {
      if ep.ipam.Some? && ep.ipam.value.ipv4 != "" {
        assert addresses[0] == Pair("--ip", ep.ipam.value.ipv4);
      }
      if ep.ipam.Some? && ep.ipam.value.ipv6 != "" {
        assert addresses[|addresses| - 1] == Pair("--ip6", ep.ipam.value.ipv6);
      }
    }
    if forall i :: 0 <= i < |pairs| ==> PairAllowed(schema, pairs[i]) {
      assert l > 0 ==> !PairAllowed(schema, pairs[a]);
      forall i | 0 <= i < a ensures ValidAlias(ep.aliases[i]) {
        assert PairAllowed(schema, pairs[i]);
      }
      forall i | 0 <= i < |addresses| ensures PairAllowed(schema, addresses[i]) {
        assert pairs[a + l + i] == addresses[i];
      }
    }
  }

  lemma NamesAllowedIff(isIp: string -> bool, net: string, name: string)
    ensures Parses(ConnectSchema(isIp), [net, name]) <==> ValidDockerName(net) && ValidDockerName(name)
  {
  }

  /**
   For every attachment, the generated command passes the allowlist exactly when the attachment is
   `Connectable`; an endpoint with links is therefore always refused.
   */
  lemma ConnectAcceptedIff(isIp: string -> bool, net: string, ep: Endpoint, name: string)
    ensures Allowlisted(isIp, ConnectCommand(net, ep, name)) <==> Connectable(isIp, net, ep, name)
  {
    var cmd := ConnectCommand(net, ep, name);
    var table := ConnectTable(isIp);
    assert cmd[..2] == CONNECT;
    assert cmd[2..] == Flatten(ConnectPairs(ep)) + [net, name];
    assert LongestPrefix(table, cmd, 2) by {
      forall longer | 2 < longer <= |cmd| ensures cmd[..longer] !in table {
        assert |cmd[..longer]| != |CONNECT|;
      }
    }
    AcceptedIffParses(table, cmd, 2);
    PairsAllowedIff(isIp, ep);
    ParsesAfterPairs(ConnectSchema(isIp), ConnectPairs(ep), [net, name]);
    NamesAllowedIff(isIp, net, name);
  }

  // ---------- Reading a command back ----------

  /** How docker reads the arguments of `network connect`: options first, then network and container. */
  datatype Connection = Connection(
    aliases: seq<string>, links: seq<string>, ip: string, ip6: string, network: string, container: string)

  function ReadArguments(rest: seq<string>): Option<Connection> {
    if rest != [] && IsFlag(rest[0]) then
      if |rest| < 2 then None
      else
        match ReadArguments(rest[2..])
        case None => None
        case Some(c) =>
          if rest[0] == "--alias" then Some(c.(aliases := [rest[1]] + c.aliases))
          else if rest[0] == "--link" then Some(c.(links := [rest[1]] + c.links))
          else if rest[0] == "--ip" then Some(if c.ip == "" then c.(ip := rest[1]) else c)
          else if rest[0] == "--ip6" then Some(if c.ip6 == "" then c.(ip6 := rest[1]) else c)
          else None
    else if |rest| == 2 then Some(Connection([], [], "", "", rest[0], rest[1]))
    else None
  }

  function ReadConnect(cmd: seq<string>): Option<Connection> {
    if CONNECT <= cmd then ReadArguments(cmd[2..]) else None
  }

  /** The network a connect command names: its last argument but one. */
  function NetworkOf(cmd: seq<string>): string {
    if |cmd| >= 2 then cmd[|cmd| - 2] else ""
  }

  /** If the allowlist lets the command through, docker reads it as attaching `name` to `NetworkOf(cmd)`. */
  ghost predicate ConnectsOwn(isIp: string -> bool, cmd: seq<string>, name: string) {
    Allowlisted(isIp, cmd) ==>
      && ReadConnect(cmd).Some? && ReadConnect(cmd).value.container == name
      && ReadConnect(cmd).value.network == NetworkOf(cmd)
  }

  lemma {:induction false} ReadFlags(flag: string, values: seq<string>, rest: seq<string>)
    requires flag == "--alias" || flag == "--link"
    requires ReadArguments(rest).Some?
    ensures ReadArguments(Flatten(FlagPairs(flag, values)) + rest) ==
            var c := ReadArguments(rest).value;
            Some(if flag == "--alias" then c.(aliases := values + c.aliases) else c.(links := values + c.links))
  {
    var pairs := FlagPairs(flag, values);
    var all := Flatten(pairs) + rest;
    if values == [] {
      var c := ReadArguments(rest).value;
      assert all == rest;
      assert [] + c.aliases == c.aliases && [] + c.links == c.links;
    } else {
      assert pairs[1..] == FlagPairs(flag, values[1..]);
      assert all == [flag, values[0]] + (Flatten(pairs[1..]) + rest);
      assert all[2..] == Flatten(FlagPairs(flag, values[1..])) + rest;
      ReadFlags(flag, values[1..], rest);
      assert forall tail: seq<string> :: [values[0]] + (values[1..] + tail) == values + tail;
    }
  }

  lemma ReadAddresses(ipam: Option<Ipam>, net: string, name: string)
    requires !IsFlag(net)
    ensures ReadArguments(Flatten(AddressPairs(ipam)) + [net, name]) ==
            Some(Connection([], [], if ipam.Some? then ipam.value.ipv4 else "",
                                    if ipam.Some? then ipam.value.ipv6 else "", net, name))
  {
    var tail := [net, name];
    FlattenAddresses(ipam);
    if ipam.Some? && ipam.value.ipv6 != "" {
      var six := ["--ip6", ipam.value.ipv6] + tail;
      assert six[2..] == tail;
      if ipam.value.ipv4 != "" {
        var four := ["--ip", ipam.value.ipv4] + six;
        assert four[2..] == six;
        assert ReadArguments(six) == Some(Connection([], [], "", ipam.value.ipv6, net, name));
        assert Flatten(AddressPairs(ipam)) + tail == four;
      } else {
        assert Flatten(AddressPairs(ipam)) + tail == six;
      }
    } else if ipam.Some? && ipam.value.ipv4 != "" {
      var four := ["--ip", ipam.value.ipv4] + tail;
      assert four[2..] == tail;
      assert Flatten(AddressPairs(ipam)) + tail == four;
    } else {
      assert Flatten(AddressPairs(ipam)) + tail == tail;
    }
  }

  lemma ConnectBody(net: string, ep: Endpoint, name: string)
    ensures var a, l, ip := FlagPairs("--alias", ep.aliases), FlagPairs("--link", ep.links), AddressPairs(ep.ipam);
            ConnectCommand(net, ep, name) == CONNECT + (Flatten(a) + (Flatten(l) + (Flatten(ip) + [net, name])))
  {
    var a, l, ip := FlagPairs("--alias", ep.aliases), FlagPairs("--link", ep.links), AddressPairs(ep.ipam);
    FlattenAppend(a + l, ip);
    FlattenAppend(a, l);
    Regroup(CONNECT, Flatten(a), Flatten(l), Flatten(ip), [net, name]);
  }

  lemma Regroup(head: seq<string>, a: seq<string>, l: seq<string>, ip: seq<string>, tail: seq<string>)
    ensures head + (a + l + ip) + tail == head + (a + (l + (ip + tail)))
  {
  }

  /** Printing and reading are inverse whenever the network's name does not look like a flag. */
  lemma ConnectReadsBack(net: string, ep: Endpoint, name: string)
    requires !IsFlag(net)
    ensures ReadConnect(ConnectCommand(net, ep, name)) ==
            Some(Connection(ep.aliases, ep.links, if ep.ipam.Some? then ep.ipam.value.ipv4 else "",
                            if ep.ipam.Some? then ep.ipam.value.ipv6 else "", net, name))
  {
    var a, l, ip := FlagPairs("--alias", ep.aliases), FlagPairs("--link", ep.links), AddressPairs(ep.ipam);
    var tail := [net, name];
    ConnectBody(net, ep, name);
    ReadAddresses(ep.ipam, net, name);
    ReadFlags("--link", ep.links, Flatten(ip) + tail);
    ReadFlags("--alias", ep.aliases, Flatten(l) + (Flatten(ip) + tail));
    assert ep.links + [] == ep.links && ep.aliases + [] == ep.aliases;
  }

  // ---------- No attachment is lost or repeated ----------

  predicate CommandFor(cmd: seq<string>, a: (string, Endpoint), main: string, name: string) {
    a.0 != main && cmd == ConnectCommand(a.0, a.1, name)
  }

  /** Every command belongs to a secondary attachment. */
  lemma {:induction false} CommandsBelong(networks: Attachments, main: string, name: string, cmd: seq<string>)
    requires cmd in CommandsExcept(networks, main, name)
    ensures exists a :: a in networks && CommandFor(cmd, a, main, name)
  {
    var front, last := networks[..|networks| - 1], networks[|networks| - 1];
    if cmd in CommandsExcept(front, main, name) {
      CommandsBelong(front, main, name, cmd);
      var a :| a in front && CommandFor(cmd, a, main, name);
      assert a in networks;
    } else {
      assert last in networks && CommandFor(cmd, last, main, name);
    }
  }

  /** Every secondary attachment has its command. */
  lemma {:induction false} CommandsCover(networks: Attachments, main: string, name: string, a: (string, Endpoint))
    requires a in networks && a.0 != main
    ensures ConnectCommand(a.0, a.1, name) in CommandsExcept(networks, main, name)
  {
    var front, last := networks[..|networks| - 1], networks[|networks| - 1];
    assert networks == front + [last];
    if a != last {
      CommandsCover(front, main, name, a);
    }
  }

  /** As many connect commands as attachments other than the main one. */
  lemma {:induction false} CommandCount(networks: Attachments, main: string, name: string)
    requires DistinctNetworks(networks)
    ensures |CommandsExcept(networks, main, name)| == |networks| - (if main in NetworkNames(networks) then 1 else 0)
  {
    if networks != [] {
      var front, last := networks[..|networks| - 1], networks[|networks| - 1];
      CommandCount(front, main, name);
      assert networks == front + [last];
      AttachmentAdded(front, last);
      assert last.0 !in NetworkNames(front);
    }
  }

  /** Main network and secondary commands together name the original attachments, each exactly once. */
  lemma AttachmentsPartitioned(c: Info)
    requires c.networks != [] && DistinctNetworks(c.networks)
    ensures MainKey(c) in NetworkNames(c.networks)
    ensures |ConnectCommands(c)| == |c.networks| - 1
    ensures forall a :: a in c.networks && a.0 != MainKey(c) ==> ConnectCommand(a.0, a.1, c.name) in ConnectCommands(c)
    ensures forall cmd :: cmd in ConnectCommands(c) ==>
              exists a :: a in c.networks && CommandFor(cmd, a, MainKey(c), c.name)
  {
    assert c.networks[0].0 in NetworkNames(c.networks);
    CommandCount(c.networks, MainKey(c), c.name);
    forall a | a in c.networks && a.0 != MainKey(c)
      ensures ConnectCommand(a.0, a.1, c.name) in ConnectCommands(c)
    {
      CommandsCover(c.networks, MainKey(c), c.name, a);
    }
    forall cmd | cmd in ConnectCommands(c)
      ensures exists a :: a in c.networks && CommandFor(cmd, a, MainKey(c), c.name)
    {
      CommandsBelong(c.networks, MainKey(c), c.name, cmd);
    }
  }

  /**
   What a container is recreated with: one primary network among its attachments, and a connect
   command for each of the others and for nothing else.
   */
  ghost predicate Reconnects(origin: Info, primary: seq<string>, commands: seq<seq<string>>) {
    && (forall cmd :: cmd in commands ==> ConnectsOneOf(origin, cmd))
    && (origin.networks != [] ==>
          && primary == [MainKey(origin)]
          && forall a :: a in origin.networks && a.0 != MainKey(origin) ==>
              ConnectCommand(a.0, a.1, origin.name) in commands)
  }

  ghost predicate ConnectsOneOf(origin: Info, cmd: seq<string>) {
    exists a :: a in origin.networks && cmd == ConnectCommand(a.0, a.1, origin.name)
  }

  /** The network is one of the container's attachments that a connect command can bring back. */
  ghost predicate Reconnectable(isIp: string -> bool, c: Info, net: string) {
    exists a :: a in c.networks && a.0 == net && Connectable(isIp, a.0, a.1, c.name)
  }

  lemma GeneratedReconnects(c: Info, primary: seq<string>)
    requires DistinctNetworks(c.networks)
    requires c.networks != [] ==> primary == [MainKey(c)]
    ensures Reconnects(c, primary, ConnectCommands(c))
  {
    if c.networks != [] {
      AttachmentsPartitioned(c);
    }
  }

  /** Every generated command attaches, if anything, its own container to one of its own networks. */
  lemma GeneratedCommand(isIp: string -> bool, c: Info, cmd: seq<string>)
    requires ConnectsOneOf(c, cmd)
    ensures ConnectsOwn(isIp, cmd, c.name) && Attached(c.networks, NetworkOf(cmd))
    ensures Allowlisted(isIp, cmd) ==> Reconnectable(isIp, c, NetworkOf(cmd))
  {
    var a :| a in c.networks && cmd == ConnectCommand(a.0, a.1, c.name);
    ConnectAcceptedIff(isIp, a.0, a.1, c.name);
    if Allowlisted(isIp, cmd) {
      ConnectReadsBack(a.0, a.1, c.name);
    }
  }
}
