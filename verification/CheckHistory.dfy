/**
 What repeated checks and finished updates make of a container's row
 (backend/core/check_actions/check_one_container.py,
 backend/core/update_actions/update_actions_util.py), and what the plan's delay rule then means.
 */
module CheckHistory {
  import opened Wrappers
  import opened Strings
  import opened Database
  import PlanSchema
  import UpdatePlanner

  // ---------- One check ----------

  /** The registry's answer for one local digest. */
  datatype Lookup = Raised | Nothing | Digest(digest: string)

  predicate Found(a: Lookup) {
    a.Digest? && a.digest != ""
  }

  /** The first digest any lookup yields, as a list of at most one. */
  function FirstDigest(answers: seq<Lookup>): seq<string> {
    if answers == [] then []
    else if Found(answers[0]) then [answers[0].digest]
    else FirstDigest(answers[1..])
  }

  /** A remote digest that no local digest contains. */
  predicate Outdated(remote: seq<string>, local: seq<string>) {
    exists i :: 0 <= i < |remote| && forall j :: 0 <= j < |local| ==> !Contains(local[j], remote[i])
  }

  datatype Verdict = Unknown | NotAvailable | Available | AvailableNotified

  /**
   What a check that got as far as the registry saw: local digests, one answer for each, image id, and
   the two clock readings. Every other check ends early and writes nothing.
   */
  datatype Check =
    | Aborted
    | Observed(local: seq<string>, answers: seq<Lookup>, imageId: string, at: int, later: int)
  {
    function Remote(): seq<string>
      requires Observed?
    {
      FirstDigest(answers)
    }

    predicate Succeeded() {
      Observed? && Remote() != []
    }

    /** The registry was asked for every local digest, and without any the check ends early. */
    predicate Consistent() {
      Observed? ==> local != [] && |answers| == |local|
    }
  }

  function VerdictOf(row: Option<Row>, c: Check): Verdict
    requires c.Observed?
  {
    if c.Remote() == [] then Unknown
    else if Outdated(c.Remote(), c.local) then
      if row.Some? && row.value.remoteDigests == Some(c.Remote()) then AvailableNotified else Available
    else NotAvailable
  }

  function DataOf(row: Option<Row>, c: Check): CheckData
    requires c.Observed?
  {
    CheckData(
      if c.Remote() == [] then row.Some? && row.value.updateAvailable else Outdated(c.Remote(), c.local),
      c.at, c.local, c.Remote(), c.imageId,
      if c.Remote() != [] && (row.None? || row.value.remoteDigests != Some(c.Remote())) then Some(c.later) else None)
  }

  function AfterCheck(row: Option<Row>, c: Check): Option<Row> {
    if c.Aborted? then row else Some(Updated(if row.Some? then row.value else EMPTY_ROW, DataOf(row, c)))
  }

  /** The lookups yield `d`: the first one that yields a digest yields this one. */
  ghost predicate Yields(answers: seq<Lookup>, d: string) {
    exists k :: 0 <= k < |answers| && answers[k] == Digest(d) && d != "" &&
                forall j :: 0 <= j < k ==> answers[j] in {Raised, Nothing, Digest("")}
  }

  lemma {:induction false} FirstFound(answers: seq<Lookup>)
    ensures forall d :: Yields(answers, d) <==> FirstDigest(answers) == [d]
    ensures FirstDigest(answers) == [] || |FirstDigest(answers)| == 1
  {
    if answers != [] {
      FirstFound(answers[1..]);
      forall d ensures Yields(answers, d) <==> FirstDigest(answers) == [d] {
        YieldsNext(answers, d);
      }
    }
  }

  lemma YieldsNext(answers: seq<Lookup>, d: string)
    requires answers != []
    ensures Yields(answers, d) <==> if Found(answers[0]) then answers[0].digest == d else Yields(answers[1..], d)
  {
    if Found(answers[0]) {
    } else if Yields(answers[1..], d) {
      var k :| 0 <= k < |answers| - 1 && answers[1..][k] == Digest(d) && d != "" &&
               forall j :: 0 <= j < k ==> answers[1..][j] in {Raised, Nothing, Digest("")};
      forall j | 0 <= j < k + 1 ensures answers[j] in {Raised, Nothing, Digest("")} {
        if j > 0 {
          assert answers[j] == answers[1..][j - 1];
        } else {
          assert answers[0].Digest? ==> answers[0] == Digest("");
        }
      }
      assert answers[k + 1] == Digest(d);
    }
  }

  /** Some local digest has `d` in it. */
  ghost predicate Known(local: seq<string>, d: string) {
    exists j :: 0 <= j < |local| && Embeds(local[j], d)
  }

  lemma OutdatedIff(local: seq<string>, d: string)
    ensures Outdated([d], local) <==> !Known(local, d)
  {
    forall j | 0 <= j < |local| ensures Contains(local[j], d) <==> Embeds(local[j], d) {
      ContainsIff(local[j], d);
    }
    assert [d][0] == d;
  }

  /**
   The verdict of a check that reached the registry, and what it leaves in the row: not available exactly
   if the digest that was found stands in some local one, notified exactly if the row already had it, and
   unknown without a digest, when the mark and the time of the last change stay.
   */
  ghost predicate Concluded(before: Option<Row>, c: Check, verdict: Verdict, row: Row)
    requires c.Observed?
  {
    var prior := if before.Some? then before.value else EMPTY_ROW;
    && (forall d :: Yields(c.answers, d) ==>
          && (verdict == NotAvailable <==> Known(c.local, d))
          && (verdict == AvailableNotified <==> !Known(c.local, d) && prior.remoteDigests == Some([d]))
          && (verdict == Available <==> !Known(c.local, d) && prior.remoteDigests != Some([d]))
          && row.updateAvailable == !Known(c.local, d) && row.remoteDigests == Some([d])
          && row.remoteDigestsChangedAt ==
             if prior.remoteDigests == Some([d]) then prior.remoteDigestsChangedAt else Some(c.later))
    && ((forall d :: !Yields(c.answers, d)) ==>
          && verdict == Unknown && row.remoteDigests == Some([])
          && row.updateAvailable == prior.updateAvailable && row.remoteDigestsChangedAt == prior.remoteDigestsChangedAt)
    && row.checkedAt == Some(c.at) && row.localDigests == Some(c.local) && row.imageId == Some(c.imageId)
    && row.updatedAt == prior.updatedAt && row.checkEnabled == prior.checkEnabled
    && row.updateEnabled == prior.updateEnabled && row.delayUpdateFor == prior.delayUpdateFor
  }

  lemma CheckConcludes(before: Option<Row>, c: Check)
    requires c.Observed?
    ensures Concluded(before, c, VerdictOf(before, c), AfterCheck(before, c).value)
  {
    FirstFound(c.answers);
    forall d | Yields(c.answers, d) ensures Outdated([d], c.local) <==> !Known(c.local, d) {
      OutdatedIff(c.local, d);
    }
    if c.Remote() != [] {
      assert Yields(c.answers, c.Remote()[0]);
    }
  }

  /** A container whose local digest is a repository's name with the digest of the registry is up to date. */
  lemma UpToDate(before: Option<Row>, c: Check, repo: string, d: string)
    requires c.Observed? && Yields(c.answers, d) && repo + "@" + d in c.local
    ensures VerdictOf(before, c) == NotAvailable && !AfterCheck(before, c).value.updateAvailable
  {
    CheckConcludes(before, c);
    var j :| 0 <= j < |c.local| && c.local[j] == repo + "@" + d;
    assert c.local[j] == (repo + "@") + d + "";
    assert Known(c.local, d);
  }

  method LookUpRemote(local: seq<string>, answers: seq<Lookup>) returns (remote: seq<string>)
    requires |answers| == |local|
    ensures remote == FirstDigest(answers)
    ensures (forall d :: Yields(answers, d) <==> remote == [d]) && (remote == [] || |remote| == 1)
  {
    FirstFound(answers);
    remote := [];
    var i := 0;
    while i < |local|
      invariant 0 <= i <= |local|
      invariant FirstDigest(answers) == FirstDigest(answers[i..])
    {
      var rd := answers[i];
      if Found(rd) {
        return [rd.digest];
      }
      i := i + 1;
    }
  }

  method CheckOne(table: ContainerTable, name: string, c: Check) returns (verdict: Verdict)
    requires c.Consistent()
    modifies table
    ensures c.Aborted? ==> table.rows == old(table.rows) && verdict == Unknown
    ensures c.Observed? ==>
              && table.rows == old(table.rows)[name := AfterCheck(RowOf(old(table.rows), name), c).value]
              && verdict == VerdictOf(RowOf(old(table.rows), name), c)
              && Concluded(RowOf(old(table.rows), name), c, verdict, table.rows[name])
  {
    if c.Aborted? {
      return Unknown;
    }
    var row := RowOf(table.rows, name);
    var remote := LookUpRemote(c.local, c.answers);
    var available: bool;
    if remote == [] {
      verdict := Unknown;
      available := row.Some? && row.value.updateAvailable;
    } else if Outdated(remote, c.local) {
      verdict := if row.Some? && row.value.remoteDigests == Some(remote) then AvailableNotified else Available;
      available := true;
    } else {
      verdict := NotAvailable;
      available := false;
    }
    var data := CheckData(available, c.at, c.local, remote, c.imageId, None);
    if verdict != Unknown && (row.None? || row.value.remoteDigests != Some(remote)) {
      data := data.(changedAt := Some(c.later));
    }
    table.InsertOrUpdate(name, data);
    CheckConcludes(row, c);
  }

  function RowOf(rows: Rows, name: string): Option<Row> {
    if name in rows then Some(rows[name]) else None
  }

  // ---------- Finished updates ----------

  /** The executor reports no digests, so the local ones become empty. */
  function AfterUpdate(row: Row, at: int): Row {
    row.(updateAvailable := false, updatedAt := Some(at), localDigests := Some([]))
  }

  method UpdateRowsAfterExecution(table: ContainerTable, results: seq<(string, PlanSchema.Verdict)>, at: int)
    modifies table
    ensures table.rows.Keys == old(table.rows).Keys
    ensures forall n :: n in table.rows ==>
              table.rows[n] ==
              if (n, PlanSchema.Updated) in results then AfterUpdate(old(table.rows)[n], at) else old(table.rows)[n]
    ensures forall n :: n in table.rows && (n, PlanSchema.Updated) in results ==>
              && !table.rows[n].updateAvailable && table.rows[n].updatedAt == Some(at)
              && table.rows[n].remoteDigests == old(table.rows)[n].remoteDigests
              && table.rows[n].remoteDigestsChangedAt == old(table.rows)[n].remoteDigestsChangedAt
  {
    for i := 0 to |results|
      invariant table.rows.Keys == old(table.rows).Keys
      invariant forall n :: n in table.rows ==>
                  table.rows[n] ==
                  if (n, PlanSchema.Updated) in results[..i] then AfterUpdate(old(table.rows)[n], at)
                  else old(table.rows)[n]
    {
      var (name, verdict) := results[i];
      assert results[..i + 1] == results[..i] + [results[i]];
      if name in table.rows && verdict == PlanSchema.Updated {
        table.rows := table.rows[name := AfterUpdate(table.rows[name], at)];
      }
    }
    assert results[..|results|] == results;
  }

  // ---------- Histories ----------

  /** What the owner sets for a container. */
  datatype Settings = Settings(checkEnabled: bool, updateEnabled: bool, delayUpdateFor: Option<int>)

  datatype Event = Checked(check: Check) | UpdateFinished(at: int) | Edited(settings: Settings)

  function SettingsOf(row: Row): Settings {
    Settings(row.checkEnabled, row.updateEnabled, row.delayUpdateFor)
  }

  function AfterEvent(row: Option<Row>, e: Event): Option<Row> {
    match e
    case Checked(c) => AfterCheck(row, c)
    case UpdateFinished(at) => if row.Some? then Some(AfterUpdate(row.value, at)) else None
    case Edited(s) =>
      var r := if row.Some? then row.value else EMPTY_ROW;
      Some(r.(checkEnabled := s.checkEnabled, updateEnabled := s.updateEnabled, delayUpdateFor := s.delayUpdateFor))
  }

  /** The row after a history of events, from a container that was never seen. */
  function RowAfter(events: seq<Event>): Option<Row> {
    if events == [] then None else AfterEvent(RowAfter(events[..|events| - 1]), events[|events| - 1])
  }

  predicate Succeeds(e: Event) {
    e.Checked? && e.check.Succeeded()
  }

  predicate Fails(e: Event) {
    e.Checked? && e.check.Observed? && e.check.Remote() == []
  }

  /** The verdict of the last successful lookup, or false if an update finished later. */
  function LastVerdict(events: seq<Event>): bool {
    if events == [] then false
    else
      var last := events[|events| - 1];
      if last.UpdateFinished? then false
      else if Succeeds(last) then Outdated(last.check.Remote(), last.check.local)
      else LastVerdict(events[..|events| - 1])
  }

  /** `update_available` is the last verdict, whatever lookups failed in between. */
  lemma {:induction false} AvailableIsLastVerdict(events: seq<Event>)
    ensures LastVerdict(events) == (RowAfter(events).Some? && RowAfter(events).value.updateAvailable)
  {
    if events != [] {
      AvailableIsLastVerdict(events[..|events| - 1]);
    }
  }

  /** The digest of the last successful lookup. */
  function LastDigest(events: seq<Event>): Option<seq<string>> {
    if events == [] then None
    else if Succeeds(events[|events| - 1]) then Some(events[|events| - 1].check.Remote())
    else LastDigest(events[..|events| - 1])
  }

  /** Whether the last check that reached the registry failed. */
  predicate LastFailed(events: seq<Event>) {
    events != [] &&
    if Fails(events[|events| - 1]) then true
    else if Succeeds(events[|events| - 1]) then false
    else LastFailed(events[..|events| - 1])
  }

  /** The stored digests are those of the last successful lookup, unless the last lookup failed and stored none. */
  lemma {:induction false} StoredDigests(events: seq<Event>)
    ensures var row := RowAfter(events);
            && (LastFailed(events) ==> row.Some? && row.value.remoteDigests == Some([]))
            && (!LastFailed(events) ==> LastDigest(events) == (if row.Some? then row.value.remoteDigests else None))
            && (row.None? ==> LastDigest(events) == None)
  {
    if events != [] {
      StoredDigests(events[..|events| - 1]);
    }
  }

  /** The lookup at `i` yields a digest other than the one before. */
  predicate DigestChanges(events: seq<Event>, i: nat)
    requires i < |events|
  {
    Succeeds(events[i]) && LastDigest(events[..i]) != Some(events[i].check.Remote())
  }

  /**
   Exactly when a check reports "available" and when it records a change: a changed digest is always
   reported, and an unchanged one is reported again exactly when the lookup before it failed.
   */
  lemma {:induction false} ReportedExactly(events: seq<Event>, c: Check)
    requires c.Succeeded()
    ensures var row, news := RowAfter(events), LastDigest(events) != Some(c.Remote()) || LastFailed(events);
            && (VerdictOf(row, c) == Available <==> Outdated(c.Remote(), c.local) && news)
            && (VerdictOf(row, c) == AvailableNotified <==> Outdated(c.Remote(), c.local) && !news)
            && (DataOf(row, c).changedAt == Some(c.later) <==> news)
            && (DataOf(row, c).changedAt == None <==> !news)
  {
    StoredDigests(events);
  }

  /** The time of the last recorded change. */
  function LastRecorded(events: seq<Event>): Option<int> {
    if events == [] then None
    else
      var front, last := events[..|events| - 1], events[|events| - 1];
      if Succeeds(last) && (LastDigest(front) != Some(last.check.Remote()) || LastFailed(front)) then
        Some(last.check.later)
      else LastRecorded(front)
  }

  lemma {:induction false} RecordedChange(events: seq<Event>)
    ensures LastRecorded(events) ==
            if RowAfter(events).Some? then RowAfter(events).value.remoteDigestsChangedAt else None
  {
    if events != [] {
      var front, last := events[..|events| - 1], events[|events| - 1];
      RecordedChange(front);
      if Succeeds(last) {
        ReportedExactly(front, last.check);
      }
    }
  }

  /** The time of the last real change of the digest. */
  function LastChange(events: seq<Event>): Option<int> {
    if events == [] then None
    else if DigestChanges(events, |events| - 1) then Some(events[|events| - 1].check.later)
    else LastChange(events[..|events| - 1])
  }

  /** Without failed lookups the recorded time is that of the last real change. */
  lemma {:induction false} RecordedIsReal(events: seq<Event>)
    requires forall i :: 0 <= i < |events| ==> !Fails(events[i])
    ensures LastRecorded(events) == LastChange(events) && !LastFailed(events)
  {
    if events != [] {
      RecordedIsReal(events[..|events| - 1]);
    }
  }

  /** A failed lookup in between resets the time although the digest is the same. */
  lemma FailedLookupResets(c1: Check, c2: Check, c3: Check)
    requires c1.Consistent() && c2.Consistent() && c3.Consistent()
    requires c1.Succeeded() && c2.Observed? && !c2.Succeeded() && c3.Succeeded() && c3.Remote() == c1.Remote()
    ensures var events := [Checked(c1), Checked(c2), Checked(c3)];
            LastChange(events) == Some(c1.later) && LastRecorded(events) == Some(c3.later)
  {
    var e1, e2, e3 := Checked(c1), Checked(c2), Checked(c3);
    var events := [e1, e2, e3];
    assert events[..2] == [e1, e2] && [e1, e2][..1] == [e1] && [e1][..0] == [];
    assert LastDigest([e1]) == Some(c1.Remote());
    assert LastDigest([e1, e2]) == Some(c1.Remote()) && LastFailed([e1, e2]);
    assert LastChange([e1]) == Some(c1.later) && LastChange([e1, e2]) == Some(c1.later);
    assert LastChange(events) == LastChange(events[..2]);
  }

  /** A check of a container with one local digest, with this answer and at this time. */
  function Seen(answer: Lookup, t: int): Check {
    Observed(["app@sha256:aa"], [answer], "id", t, t)
  }

  /** Three checks of a container with one local digest, of which the second one reaches no registry. */
  lemma OneTimeoutResets(t1: int, t2: int, t3: int)
    requires t1 < t2 < t3
    ensures var c1, c2, c3 := Seen(Digest("sha256:bb"), t1), Seen(Raised, t2), Seen(Digest("sha256:bb"), t3);
            var events := [Checked(c1), Checked(c2), Checked(c3)];
            LastChange(events) == Some(t1) && LastRecorded(events) == Some(t3)
  {
    assert FirstDigest([Raised]) == FirstDigest([]);
    FailedLookupResets(Seen(Digest("sha256:bb"), t1), Seen(Raised, t2), Seen(Digest("sha256:bb"), t3));
  }

  /** What the owner set last, or the defaults. */
  function LastSettings(events: seq<Event>): Settings {
    if events == [] then SettingsOf(EMPTY_ROW)
    else if events[|events| - 1].Edited? then events[|events| - 1].settings
    else LastSettings(events[..|events| - 1])
  }

  /** Checks and finished updates leave the owner's settings alone. */
  lemma {:induction false} SettingsKept(events: seq<Event>)
    ensures RowAfter(events).Some? ==> SettingsOf(RowAfter(events).value) == LastSettings(events)
    ensures RowAfter(events).None? ==> LastSettings(events) == SettingsOf(EMPTY_ROW)
  {
    if events != [] {
      SettingsKept(events[..|events| - 1]);
    }
  }

  // ---------- The delay rule ----------

  predicate ClockForward(events: seq<Event>, now: int) {
    && (forall i :: 0 <= i < |events| && Succeeds(events[i]) ==> events[i].check.later <= now)
    && forall i, j :: 0 <= i < j < |events| && Succeeds(events[i]) && Succeeds(events[j]) ==>
         events[i].check.later <= events[j].check.later
  }

  /** No real change is later than the recorded one, failed lookups or not. */
  lemma {:induction false} RecordedCovers(events: seq<Event>, now: int, i: nat)
    requires ClockForward(events, now) && i < |events| && DigestChanges(events, i)
    ensures LastRecorded(events).Some? && events[i].check.later <= LastRecorded(events).value
  {
    var n := |events| - 1;
    if i < n {
      assert events[..n][..i] == events[..i];
      RecordedCovers(events[..n], now, i);
    }
  }

  /**
   A scheduled plan takes a container only when an update is available and enabled and every real
   change of its remote digest is at least the effective delay ago, over any history of checks.
   */
  lemma DelayRespected(events: seq<Event>, rows: Rows, name: string, globalDelay: int, now: int, i: nat)
    requires ClockForward(events, now) && i < |events| && DigestChanges(events, i)
    requires name in rows && RowAfter(events) == Some(rows[name])
    requires UpdatePlanner.Selected(rows, name, false, globalDelay, now)
    ensures LastSettings(events).updateEnabled && LastVerdict(events)
    ensures var own := LastSettings(events).delayUpdateFor;
            var delay := if own.Some? then own.value else globalDelay;
            delay > 0 ==> now - events[i].check.later >= delay
  {
    AvailableIsLastVerdict(events);
    SettingsKept(events);
    RecordedChange(events);
    RecordedCovers(events, now, i);
  }

  /** Without failed lookups the delay is over exactly when it has passed since the last real change. */
  lemma DelayExact(events: seq<Event>, row: Row, globalDelay: int, now: int)
    requires RowAfter(events).Some? && row.remoteDigestsChangedAt == RowAfter(events).value.remoteDigestsChangedAt
    requires forall i :: 0 <= i < |events| ==> !Fails(events[i])
    ensures var delay := if row.delayUpdateFor.Some? then row.delayUpdateFor.value else globalDelay;
            UpdatePlanner.DelayOver(row, globalDelay, now) <==>
            (delay > 0 && LastChange(events).Some? ==> now - LastChange(events).value >= delay)
  {
    RecordedChange(events);
    RecordedIsReal(events);
  }
}
