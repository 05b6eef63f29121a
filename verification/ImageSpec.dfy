/** How an image spec is read as registry, repository and tag (backend/core/check_actions/check_actions_util.py). */
module ImageSpec {
  import opened Strings

  const HUB := "registry-1.docker.io"

  datatype ImageRef = ImageRef(registry: string, repo: string, tag: string)

  /** `s.rfind(c)`. */
  function RFind(s: string, c: char): (r: int)
    ensures -1 <= r < |s|
    ensures r >= 0 ==> s[r] == c
    ensures forall i :: r < i < |s| ==> s[i] != c
  {
    if s == "" then -1
    else if s[|s| - 1] == c then |s| - 1
    else RFind(s[..|s| - 1], c)
  }

  /** The last colon starts a tag when it follows the last slash, or when it is the only colon and there is no slash. */
  predicate HasTag(spec: string) {
    || (Has(spec, ':') && Has(spec, '/') && RFind(spec, ':') > RFind(spec, '/'))
    || (Has(spec, ':') && multiset(spec)[':'] == 1 && !Has(spec, '/'))
  }

  function Untagged(spec: string): string {
    if HasTag(spec) then spec[..RFind(spec, ':')] else spec
  }

  function TagOf(spec: string): string {
    if HasTag(spec) then spec[RFind(spec, ':') + 1..] else "latest"
  }

  predicate NamesRegistry(part: string) {
    Has(part, '.') || Has(part, ':') || part == "localhost"
  }

  /** The part of a spec that may name the registry. */
  function Leading(spec: string): string {
    Split(Untagged(spec), '/')[0]
  }

  /** The registry's API host, and Docker Hub's implicit `library/`. */
  function Resolved(named: string, path: string, tag: string): ImageRef {
    var registry := if named == "docker.io" || named == "index.docker.io" then HUB else named;
    ImageRef(registry, if registry == HUB && !Has(path, '/') then "library/" + path else path, tag)
  }

  function ParseImageSpec(spec: string): ImageRef {
    var rest := Untagged(spec);
    if NamesRegistry(Leading(spec)) then
      Resolved(Leading(spec), Join(Split(rest, '/')[1..], '/'), TagOf(spec))
    else
      Resolved(HUB, rest, TagOf(spec))
  }

  function Text(r: ImageRef): string {
    r.registry + "/" + r.repo + ":" + r.tag
  }

  /** The triples the parser can return: see `NormalExactly`. */
  predicate Normal(r: ImageRef) {
    && !Has(r.tag, ':') && !Has(r.tag, '/')
    && NamesRegistry(r.registry) && !Has(r.registry, '/')
    && r.registry != "docker.io" && r.registry != "index.docker.io"
    && (r.registry == HUB ==> Has(r.repo, '/'))
  }

  lemma ResolvedNormal(named: string, path: string, tag: string)
    requires !Has(tag, ':') && !Has(tag, '/')
    requires NamesRegistry(named) && !Has(named, '/')
    ensures Normal(Resolved(named, path, tag))
  {
    HubNamed();
    assert ("library/" + path)[7] == '/';
  }

  lemma HubNamed()
    ensures NamesRegistry(HUB) && !Has(HUB, '/') && !Has(HUB, ':')
  {
    assert HUB[10] == '.';
  }

  lemma TagClean(spec: string)
    ensures !Has(TagOf(spec), ':') && !Has(TagOf(spec), '/')
  {
  }

  lemma ParsesToNormal(spec: string)
    ensures Normal(ParseImageSpec(spec))
  {
    TagClean(spec);
    if NamesRegistry(Leading(spec)) {
      JoinSplit(Untagged(spec), '/');
      ResolvedNormal(Leading(spec), Join(Split(Untagged(spec), '/')[1..], '/'), TagOf(spec));
    } else {
      HubNamed();
      ResolvedNormal(HUB, Untagged(spec), TagOf(spec));
    }
  }

  /** A colon with no colon or slash behind it is cut off as the tag of anything that holds a slash. */
  lemma CutTag(front: string, tag: string)
    requires Has(front, '/') && !Has(tag, ':') && !Has(tag, '/')
    ensures Untagged(front + ":" + tag) == front && TagOf(front + ":" + tag) == tag
  {
    var s := front + ":" + tag;
    assert s[|front|] == ':';
    var i :| 0 <= i < |front| && front[i] == '/';
    assert s[i] == '/';
    assert forall j :: |front| < j < |s| ==> s[j] == tag[j - |front| - 1];
    assert RFind(s, ':') == |front|;
  }

  lemma SplitRegistry(registry: string, path: string)
    requires !Has(registry, '/')
    ensures var parts := Split(registry + "/" + path, '/');
            parts[0] == registry && Join(parts[1..], '/') == path
  {
    SplitFirst(registry, path, '/');
    JoinSplit(path, '/');
    var parts := Split(registry + "/" + path, '/');
    assert parts[1..] == Split(path, '/');
  }

  /** Parsing undoes writing. */
  lemma ParseText(r: ImageRef)
    requires Normal(r)
    ensures ParseImageSpec(Text(r)) == r
  {
    var front := r.registry + "/" + r.repo;
    assert front[|r.registry|] == '/';
    CutTag(front, r.tag);
    SplitRegistry(r.registry, r.repo);
  }

  /** On every string the parser is a normaliser. */
  lemma Normaliser(spec: string)
    ensures ParseImageSpec(Text(ParseImageSpec(spec))) == ParseImageSpec(spec)
  {
    ParsesToNormal(spec);
    ParseText(ParseImageSpec(spec));
  }

  /** The normal triples are exactly the parser's results. */
  lemma NormalExactly(r: ImageRef)
    ensures Normal(r) <==> exists spec :: ParseImageSpec(spec) == r
  {
    if Normal(r) {
      ParseText(r);
    }
    forall spec | ParseImageSpec(spec) == r ensures Normal(r) {
      ParsesToNormal(spec);
    }
  }

  lemma LastIn(head: string, rest: string, c: char)
    requires Has(rest, c)
    ensures RFind(head + rest, c) == |head| + RFind(rest, c)
  {
    var s := head + rest;
    var i :| 0 <= i < |rest| && rest[i] == c;
    assert s[|head| + RFind(rest, c)] == c;
    assert forall j :: |head| <= j < |s| ==> s[j] == rest[j - |head|];
  }

  /** Whether `rest` behind a host and a slash ends in a tag. */
  predicate TagBehindHost(rest: string) {
    Has(rest, ':') && RFind(rest, ':') > RFind(rest, '/')
  }

  lemma HostTag(host: string, rest: string)
    requires !Has(host, '/') && !Has(host, ':')
    ensures HasTag(host + "/" + rest) == TagBehindHost(rest)
    ensures TagBehindHost(rest) ==> RFind(host + "/" + rest, ':') == |host| + 1 + RFind(rest, ':')
  {
    var head, s := host + "/", host + "/" + rest;
    assert s[|host|] == '/';
    if Has(rest, ':') {
      LastIn(head, rest, ':');
      var i :| 0 <= i < |rest| && rest[i] == ':';
      assert s[|head| + i] == ':';
      if Has(rest, '/') {
        LastIn(head, rest, '/');
      } else {
        LastSlash(host, rest);
      }
    } else {
      assert !Has(s, ':');
    }
  }

  lemma LastSlash(host: string, rest: string)
    requires !Has(rest, '/')
    ensures RFind(host + "/" + rest, '/') == |host|
  {
    var s := host + "/" + rest;
    assert s[|host|] == '/';
    assert forall j :: |host| < j < |s| ==> s[j] == rest[j - |host| - 1];
  }

  /** Behind a host without colon the tag is cut off the same way whatever the host. */
  lemma HostKept(host: string, rest: string)
    requires !Has(host, '/') && !Has(host, ':')
    ensures var path := if TagBehindHost(rest) then rest[..RFind(rest, ':')] else rest;
            && Untagged(host + "/" + rest) == host + "/" + path
            && TagOf(host + "/" + rest) == if TagBehindHost(rest) then rest[RFind(rest, ':') + 1..] else "latest"
  {
    HostTag(host, rest);
    if TagBehindHost(rest) {
      var head, at := host + "/", RFind(rest, ':');
      assert (head + rest)[..|head| + at] == head + rest[..at];
      assert (head + rest)[|head| + at + 1..] == rest[at + 1..];
    }
  }

  /** What a spec means behind one of Docker Hub's hosts. */
  function OnHub(rest: string): ImageRef {
    if TagBehindHost(rest) then
      Resolved(HUB, rest[..RFind(rest, ':')], rest[RFind(rest, ':') + 1..])
    else
      Resolved(HUB, rest, "latest")
  }

  lemma HostNamed(host: string)
    requires host == "docker.io" || host == "index.docker.io" || host == HUB
    ensures NamesRegistry(host) && !Has(host, '/') && !Has(host, ':')
  {
  }

  lemma LastColon(front: string, tag: string)
    requires !Has(tag, ':')
    ensures RFind(front + ":" + tag, ':') == |front|
    ensures (front + ":" + tag)[..|front|] == front && (front + ":" + tag)[|front| + 1..] == tag
  {
    var s := front + ":" + tag;
    assert s[|front|] == ':';
    assert forall j :: |front| < j < |s| ==> s[j] == tag[j - |front| - 1];
  }

  lemma OneColon(front: string, tag: string)
    requires !Has(front, ':') && !Has(tag, ':')
    ensures multiset(front + ":" + tag)[':'] == 1
  {
    assert multiset(front)[':'] == 0 && multiset(tag)[':'] == 0;
    assert multiset(front + ":" + tag) == multiset(front) + multiset(":") + multiset(tag);
  }

  lemma LatestCut(spec: string)
    requires !Has(spec, '/') && !Has(spec, ':')
    ensures Untagged(spec + ":" + "latest") == spec && TagOf(spec + ":" + "latest") == "latest"
  {
    LastColon(spec, "latest");
    OneColon(spec, "latest");
    LoneTag(spec + ":" + "latest", |spec|);
  }

  lemma LoneTag(s: string, at: nat)
    requires at < |s| && s[at] == ':' && multiset(s)[':'] == 1 && !Has(s, '/')
    ensures Untagged(s) == s[..RFind(s, ':')] && TagOf(s) == s[RFind(s, ':') + 1..]
  {
  }

  lemma SameParts(a: string, b: string)
    requires Untagged(a) == Untagged(b) && TagOf(a) == TagOf(b)
    ensures ParseImageSpec(a) == ParseImageSpec(b)
  {
  }

  /** A spec without a tag means the same with the tag `latest`. */
  lemma LatestSpelled(spec: string)
    requires !HasTag(spec) && (Has(spec, '/') || !Has(spec, ':'))
    ensures ParseImageSpec(spec + ":latest") == ParseImageSpec(spec)
  {
    assert spec + ":" + "latest" == spec + ":latest";
    if Has(spec, '/') {
      CutTag(spec, "latest");
    } else {
      LatestCut(spec);
    }
    SameParts(spec + ":latest", spec);
  }

  /** The three spellings of Docker Hub's host mean the same before every remainder. */
  lemma HubSpellings(host: string, rest: string)
    requires host == "docker.io" || host == "index.docker.io" || host == HUB
    ensures ParseImageSpec(host + "/" + rest) == OnHub(rest)
  {
    HostNamed(host);
    HostKept(host, rest);
    SplitRegistry(host, if TagBehindHost(rest) then rest[..RFind(rest, ':')] else rest);
  }

  lemma SlashAndColonFree(name: string)
    requires !Has(name, '/') && !Has(name, ':')
    ensures Untagged(name) == name && TagOf(name) == "latest" && Leading(name) == name
  {
    SplitNone(name, '/');
  }

  /**
   A plain name, with or without a tag, is one of Docker Hub's library images; without a tag it means
   `latest`.
   */
  lemma LibraryImage(name: string, tag: string)
    requires !Has(name, '/') && !Has(name, ':') && !Has(name, '.') && name != "localhost"
    requires !Has(tag, '/') && !Has(tag, ':')
    ensures ParseImageSpec(name) == ImageRef("registry-1.docker.io", "library/" + name, "latest")
    ensures ParseImageSpec(name + ":" + tag) == ImageRef("registry-1.docker.io", "library/" + name, tag)
  {
    SlashAndColonFree(name);
    LastColon(name, tag);
    OneColon(name, tag);
    assert (name + ":" + tag)[|name|] == ':';
    LoneTag(name + ":" + tag, |name|);
  }

  /** What stands before the first slash is the registry if it holds a dot or a colon or is `localhost`. */
  lemma RegistryImage(registry: string, path: string, tag: string)
    requires !Has(registry, '/') && !Has(tag, '/') && !Has(tag, ':')
    requires Has(registry, '.') || Has(registry, ':') || registry == "localhost"
    requires registry !in {"docker.io", "index.docker.io", "registry-1.docker.io"}
    ensures ParseImageSpec(registry + "/" + path + ":" + tag) == ImageRef(registry, path, tag)
  {
    assert (registry + "/" + path)[|registry|] == '/';
    CutTag(registry + "/" + path, tag);
    SplitRegistry(registry, path);
  }

  /** Any other leading part belongs to the path of a Docker Hub image. */
  lemma UserImage(user: string, path: string, tag: string)
    requires !Has(user, '/') && !Has(tag, '/') && !Has(tag, ':')
    requires !Has(user, '.') && !Has(user, ':') && user != "localhost"
    ensures ParseImageSpec(user + "/" + path + ":" + tag) ==
            ImageRef("registry-1.docker.io", user + "/" + path, tag)
  {
    assert (user + "/" + path)[|user|] == '/';
    CutTag(user + "/" + path, tag);
    SplitRegistry(user, path);
  }

  lemma SplitShape(spec: string)
    ensures var parts := Split(spec, '/');
            && (|parts| == 1 ==> parts[0] == spec && !Has(spec, '/') && Join(parts[1..], '/') == "")
            && (|parts| > 1 ==> spec == parts[0] + "/" + Join(parts[1..], '/'))
  {
    JoinSplit(spec, '/');
  }

  /** A slash makes the two tag rules agree; without one they differ exactly on several colons. */
  lemma TagAlone(spec: string)
    ensures Has(spec, '/') || multiset(spec)[':'] <= 1 ==> HasTag(spec) == TagBehindHost(spec)
    ensures !Has(spec, '/') && multiset(spec)[':'] > 1 ==> Has(spec, ':') && !HasTag(spec)
  {
  }

  /** A host that is taken off the path is missing from the repository. */
  lemma HostMissing(named: string, path: string, rest: string, tag: string)
    requires rest == named + "/" + path || (rest == named && path == "")
    requires named == "docker.io" || named == "index.docker.io" || named == HUB
    ensures Resolved(named, path, tag).repo != Resolved(HUB, rest, tag).repo
  {
  }

  lemma SeveralColons(spec: string)
    requires !Has(spec, '/') && Has(spec, ':') && !HasTag(spec)
    ensures NamesRegistry(Leading(spec)) && ParseImageSpec(spec) != OnHub(spec)
  {
    SplitNone(spec, '/');
    if spec == "docker.io" || spec == "index.docker.io" || spec == HUB {
      HostNamed(spec);
    }
    assert OnHub(spec).registry == HUB;
    assert ParseImageSpec(spec).registry == spec;
  }

  lemma HostTaken(spec: string)
    requires NamesRegistry(Leading(spec))
    ensures ParseImageSpec(spec) != Resolved(HUB, Untagged(spec), TagOf(spec))
  {
    var rest, named, tag := Untagged(spec), Leading(spec), TagOf(spec);
    var path := Join(Split(rest, '/')[1..], '/');
    SplitShape(rest);
    if named == "docker.io" || named == "index.docker.io" || named == HUB {
      HostMissing(named, path, rest, tag);
    } else {
      assert Resolved(named, path, tag).registry == named;
    }
  }

  /** A spec is read as a Docker Hub name exactly when its leading part does not name a registry. */
  lemma ShortNames(spec: string)
    ensures ParseImageSpec(spec) == OnHub(spec) <==> !NamesRegistry(Leading(spec))
  {
    TagAlone(spec);
    if HasTag(spec) != TagBehindHost(spec) {
      SeveralColons(spec);
    } else {
      assert OnHub(spec) == Resolved(HUB, Untagged(spec), TagOf(spec));
      if NamesRegistry(Leading(spec)) {
        HostTaken(spec);
      }
    }
  }
}
