/** The shared progress cache and its keys (backend/core/progress/progress_cache.py, progress_util.py). */
module Progress {
  import opened Wrappers
  import opened Strings

  datatype Status = PREPARING | CHECKING | UPDATING | PRUNING | DONE | ERROR

  /** Whose progress an entry shows: everything, a host, a container, or a plan of a host. */
  datatype Key =
    | AllKey
    | HostKey(id: nat, host: string)
    | ContainerKey(id: nat, host: string, container: string)
    | PlanKey(id: nat, host: string, toUpdate: set<string>)

  /** The fields an entry or an update of it has; `hasResult` stands for a `result` field. */
  datatype Entry = Entry(status: Option<Status>, hasResult: bool)

  type Entries = map<Key, Entry>

  function WithStatus(s: Status): Entry {
    Entry(Some(s), false)
  }

  predicate Ended(e: Entry) {
    e.status == Some(DONE) || e.status == Some(ERROR)
  }

  /** Whether an action may start: no entry, an entry without fields, or one that ended. */
  predicate IsAllowedStart(e: Option<Entry>) {
    e.None? || e.value == Entry(None, false) || Ended(e.value)
  }

  function EntryOf(entries: Entries, key: Key): Option<Entry> {
    if key in entries then Some(entries[key]) else None
  }

  /** The fields of `more` win. */
  function Overlay(current: Entry, more: Entry): Entry {
    Entry(if more.status.Some? then more.status else current.status, current.hasResult || more.hasResult)
  }

  function UpdatedEntries(entries: Entries, key: Key, data: Entry): Entries {
    entries[key := Overlay(if key in entries then entries[key] else Entry(None, false), data)]
  }

  /** The map behind all progress caches. */
  class SharedEntries {
    var entries: Entries

    constructor ()
      ensures entries == map[]
    {
      entries := map[];
    }
  }

  class ProgressCache {
    const shared: SharedEntries
    const id: Key

    constructor (shared: SharedEntries, id: Key)
      ensures this.shared == shared && this.id == id
    {
      this.shared, this.id := shared, id;
    }

    method Get() returns (e: Option<Entry>)
      ensures e == EntryOf(shared.entries, id)
    {
      e := if id in shared.entries then Some(shared.entries[id]) else None;
    }

    method Set(data: Entry)
      modifies shared
      ensures shared.entries == old(shared.entries)[id := data]
    {
      shared.entries := shared.entries[id := data];
    }

    method Update(data: Entry)
      modifies shared
      ensures shared.entries == UpdatedEntries(old(shared.entries), id, data)
    {
      var current := if id in shared.entries then shared.entries[id] else Entry(None, false);
      shared.entries := shared.entries[id := Overlay(current, data)];
    }
  }

  // ---------- Keys as strings ----------

  function Digits(n: nat): string {
    if n < 10 then [DIGITS[n]] else Digits(n / 10) + [DIGITS[n % 10]]
  }

  const DIGITS := "0123456789"

  /** A name docker gives to a container. */
  predicate DockerName(s: string) {
    s != "" && forall i :: 0 <= i < |s| ==> s[i] !in {'\'', ':', '[', ']', ',', ' '}
  }

  /** The members of a set in an order that depends on the set alone, as sorting gives. */
  ghost function Listing(names: set<string>): (r: seq<string>)
    ensures forall n :: n in r <==> n in names
  {
    if names == {} then []
    else
      var n :| n in names;
      [n] + Listing(names - {n})
  }

  /** How a list of names is printed, without its brackets. */
  function Quoted(names: seq<string>): string {
    if names == [] then ""
    else if |names| == 1 then "'" + names[0] + "'"
    else "'" + names[0] + "'" + ", " + Quoted(names[1..])
  }

  ghost function KeyText(key: Key, allKey: string): string {
    match key
    case AllKey => allKey
    case HostKey(id, host) => Digits(id) + ":" + host
    case ContainerKey(id, host, container) => Digits(id) + ":" + host + ":" + container
    case PlanKey(id, host, toUpdate) => Digits(id) + ":" + host + ":[" + Quoted(Listing(toUpdate)) + "]"
  }

  predicate ProperKey(key: Key) {
    match key
    case AllKey => true
    case HostKey(_, _) => true
    case ContainerKey(_, _, container) => DockerName(container)
    case PlanKey(_, _, toUpdate) => forall n :: n in toUpdate ==> DockerName(n)
  }

  lemma FirstSeparator(a: string, b: string, sep: char)
    requires !Has(a, sep)
    ensures (a + [sep] + b)[|a|] == sep && forall i :: 0 <= i < |a| ==> (a + [sep] + b)[i] != sep
  {
  }

  /** The text before the first separator and the text behind it are determined. */
  lemma Unjoin(a: string, b: string, c: string, d: string, sep: char)
    requires a + [sep] + b == c + [sep] + d && !Has(a, sep) && !Has(c, sep)
    ensures a == c && b == d
  {
    var s, t := a + [sep] + b, c + [sep] + d;
    FirstSeparator(a, b, sep);
    FirstSeparator(c, d, sep);
    assert |a| == |c|;
    assert a == s[..|a|] && c == t[..|c|];
    assert b == s[|a| + 1..] && d == t[|c| + 1..];
  }

  lemma {:induction false} DigitsOnly(n: nat)
    ensures Digits(n) != "" && forall i :: 0 <= i < |Digits(n)| ==> Digits(n)[i] in DIGITS
  {
    if n >= 10 {
      DigitsOnly(n / 10);
    }
  }

  lemma DigitAt(i: nat, j: nat)
    requires i < 10 && j < 10 && DIGITS[i] == DIGITS[j]
    ensures i == j
  {
  }

  lemma {:induction false} DigitsInjective(m: nat, n: nat)
    requires Digits(m) == Digits(n)
    ensures m == n
  {
    DigitsOnly(m / 10);
    DigitsOnly(n / 10);
    var s := Digits(m);
    assert s[|s| - 1] == DIGITS[m % 10] == DIGITS[n % 10];
    DigitAt(m % 10, n % 10);
    if m >= 10 && n >= 10 {
      assert Digits(m / 10) == s[..|s| - 1] == Digits(n / 10);
      DigitsInjective(m / 10, n / 10);
    }
  }

  lemma {:induction false} QuotedInjective(a: seq<string>, b: seq<string>)
    requires Quoted(a) == Quoted(b)
    requires forall n :: n in a || n in b ==> DockerName(n)
    ensures a == b
  {
    if a != [] && b != [] {
      var s, t := Quoted(a), Quoted(b);
      var tailA := if |a| == 1 then "" else ", " + Quoted(a[1..]);
      var tailB := if |b| == 1 then "" else ", " + Quoted(b[1..]);
      assert s == "'" + (a[0] + "'" + tailA);
      assert t == "'" + (b[0] + "'" + tailB);
      assert s[1..] == a[0] + ['\''] + tailA && t[1..] == b[0] + ['\''] + tailB;
      assert DockerName(a[0]) && DockerName(b[0]);
      Unjoin(a[0], tailA, b[0], tailB, '\'');
      if |a| > 1 && |b| > 1 {
        assert Quoted(a[1..]) == tailA[2..] && Quoted(b[1..]) == tailB[2..];
        QuotedInjective(a[1..], b[1..]);
        assert a == [a[0]] + a[1..] && b == [b[0]] + b[1..];
      }
    }
  }

  /** What follows the host's part of a key. */
  ghost function Suffix(key: Key): string
    requires !key.AllKey?
  {
    match key
    case HostKey(_, _) => ""
    case ContainerKey(_, _, container) => ":" + container
    case PlanKey(_, _, toUpdate) => ":[" + Quoted(Listing(toUpdate)) + "]"
  }

  lemma KeyParts(key: Key, allKey: string)
    requires !key.AllKey?
    ensures KeyText(key, allKey) == Digits(key.id) + [':'] + (key.host + Suffix(key))
    ensures !Has(Digits(key.id), ':') && Has(KeyText(key, allKey), ':')
  {
    DigitsOnly(key.id);
    assert forall i :: 0 <= i < |DIGITS| ==> DIGITS[i] != ':';
    assert KeyText(key, allKey) == Digits(key.id) + [':'] + (key.host + Suffix(key));
    assert KeyText(key, allKey)[|Digits(key.id)|] == ':';
  }

  lemma ContainerNotPlan(container: string, listing: string)
    requires DockerName(container)
    ensures ":" + container != ":[" + listing + "]"
  {
    assert (":" + container)[1] == container[0];
  }

  lemma SuffixInjective(a: Key, b: Key)
    requires !a.AllKey? && !b.AllKey? && ProperKey(a) && ProperKey(b)
    requires a.id == b.id && a.host == b.host && Suffix(a) == Suffix(b)
    ensures a == b
  {
    var s, t := Suffix(a), Suffix(b);
    if a.ContainerKey? && b.ContainerKey? {
      assert a.container == s[1..] && b.container == t[1..];
    } else if a.PlanKey? && b.PlanKey? {
      assert Quoted(Listing(a.toUpdate)) == s[2..|s| - 1] && Quoted(Listing(b.toUpdate)) == t[2..|t| - 1];
      QuotedInjective(Listing(a.toUpdate), Listing(b.toUpdate));
      assert a.toUpdate == b.toUpdate;
    } else if a.ContainerKey? && b.PlanKey? {
      ContainerNotPlan(a.container, Quoted(Listing(b.toUpdate)));
    } else if a.PlanKey? && b.ContainerKey? {
      ContainerNotPlan(b.container, Quoted(Listing(a.toUpdate)));
    }
  }

  /** Different keys are different strings: no action's lock shows up under another one's key. */
  lemma KeysDistinct(a: Key, b: Key, allKey: string)
    requires ProperKey(a) && ProperKey(b) && !Has(allKey, ':')
    requires !a.AllKey? && !b.AllKey? && a.id == b.id ==> a.host == b.host
    ensures KeyText(a, allKey) == KeyText(b, allKey) <==> a == b
  {
    if KeyText(a, allKey) == KeyText(b, allKey) {
      if a.AllKey? || b.AllKey? {
        if !a.AllKey? || !b.AllKey? {
          KeyParts(if a.AllKey? then b else a, allKey);
        }
      } else {
        KeyParts(a, allKey);
        KeyParts(b, allKey);
        Unjoin(Digits(a.id), a.host + Suffix(a), Digits(b.id), b.host + Suffix(b), ':');
        DigitsInjective(a.id, b.id);
        assert Suffix(a) == (a.host + Suffix(a))[|a.host|..];
        assert Suffix(b) == (b.host + Suffix(b))[|b.host|..];
        SuffixInjective(a, b);
      }
    }
  }
}
