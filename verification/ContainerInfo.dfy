/** What `docker inspect` reports about a container and an image, as far as the modelled code reads it. */
module ContainerInfo {
  import opened Wrappers

  /** Static addresses of one network attachment; an empty string is an address that is not set. */
  datatype Ipam = Ipam(ipv4: string, ipv6: string)

  datatype Endpoint = Endpoint(aliases: seq<string>, links: seq<string>, ipam: Option<Ipam>, mac: string)

  /** The attachments in the order in which Docker lists them. */
  type Attachments = seq<(string, Endpoint)>

  /** An entrypoint or command field: missing, a single string, or a list. */
  datatype Argument = Missing | Text(text: string) | Words(words: seq<string>)

  /** Name resolution settings. */
  datatype Dns = Dns(servers: seq<string>, options: seq<string>, search: seq<string>)

  /** `settings` are all other fields a create request copies, each as its mapper gives it. */
  datatype Info = Info(
    name: string,
    id: string,
    image: Option<string>,
    spec: Option<string>,
    running: bool,
    health: Option<string>,
    labels: map<string, string>,
    entrypoint: Argument,
    cmd: Argument,
    workdir: string,
    hostname: string,
    mac: string,
    links: seq<string>,
    dns: Dns,
    publish: seq<string>,
    publishAll: bool,
    settings: map<string, string>,
    networkMode: string,
    networks: Attachments)

  /** The working directory is missing only of an image without a configuration. */
  datatype Image = Image(id: string, entrypoint: Argument, cmd: Argument, workdir: Option<string>,
                         labels: map<string, string>)

  function NetworkNames(networks: Attachments): set<string> {
    set i | 0 <= i < |networks| :: networks[i].0
  }

  predicate Attached(networks: Attachments, net: string) {
    exists i :: 0 <= i < |networks| && networks[i].0 == net
  }

  /** Docker keys attachments by network name. */
  predicate DistinctNetworks(networks: Attachments) {
    forall i, j :: 0 <= i < j < |networks| ==> networks[i].0 != networks[j].0
  }

  lemma AttachmentAdded(networks: Attachments, a: (string, Endpoint))
    ensures NetworkNames(networks + [a]) == NetworkNames(networks) + {a.0}
  {
    var more := networks + [a];
    assert more[|networks|] == a;
    forall n | n in NetworkNames(networks) ensures n in NetworkNames(more) {
      var i :| 0 <= i < |networks| && networks[i].0 == n;
      assert more[i].0 == n;
    }
  }
}
