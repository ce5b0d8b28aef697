/** What a page of the change log holds, told from the log itself: which runs, which snapshots,
    whose name and version, which mode and what time, and in what order. */
module ChangeLogEntries {
  import opened Wrappers
  import opened ChangeLog
  import ChangeLogPages

  // ----- one run, read from the log ------------------------------------------------------------------

  /** The found snapshots of what the run aggregated, in log order. */
  function AddedIn(events: seq<Event>, run: string, resolve: string -> Resolution): seq<Snapshot> {
    if events == [] then []
    else
      var e := events[|events| - 1];
      AddedIn(events[..|events| - 1], run, resolve)
      + if e.requestId == run && e.op == "aggregate" && resolve(e.entityId).Found? then [resolve(e.entityId).snapshot] else []
  }

  /** The found snapshots of what the run superseded, in log order. */
  function RemovedIn(events: seq<Event>, run: string, resolve: string -> Resolution): seq<Snapshot> {
    if events == [] then []
    else
      var e := events[|events| - 1];
      RemovedIn(events[..|events| - 1], run, resolve)
      + if e.requestId == run && e.op == "status_change" && e.toStatus == Some("superseded") && resolve(e.entityId).Found?
        then [resolve(e.entityId).snapshot] else []
  }

  predicate AggregatedBy(e: Event, run: string) {
    e.requestId == run && e.op == "aggregate"
  }

  /** The run's first aggregate event gives a full archive as its reason. */
  predicate ArchivesFully(events: seq<Event>, run: string) {
    exists i :: 0 <= i < |events| && AggregatedBy(events[i], run) && events[i].reason == Some("aggregate:full_archive")
                && forall j :: 0 <= j < i ==> !AggregatedBy(events[j], run)
  }

  predicate NoLater(created: int, id: int, otherCreated: int, otherId: int) {
    created < otherCreated || (created == otherCreated && id <= otherId)
  }

  /** The time and number of the run's most recent event, or zero and zero. */
  predicate LastStamp(events: seq<Event>, run: string, created: int, id: int) {
    && NoLater(0, 0, created, id)
    && (forall i :: 0 <= i < |events| && events[i].requestId == run ==> NoLater(events[i].createdAt, events[i].eventId, created, id))
    && ((created == 0 && id == 0)
        || exists i :: 0 <= i < |events| && events[i].requestId == run && events[i].createdAt == created && events[i].eventId == id)
  }

  /** The snapshot whose name and version the run goes by. */
  function Face(events: seq<Event>, run: string, resolve: string -> Resolution): Snapshot
    requires AddedIn(events, run, resolve) != [] || RemovedIn(events, run, resolve) != []
  {
    if AddedIn(events, run, resolve) != [] then AddedIn(events, run, resolve)[0] else RemovedIn(events, run, resolve)[0]
  }

  /** Some snapshot of the run is found, and the query asks for no other name or version. */
  predicate Wanted(events: seq<Event>, run: string, resolve: string -> Resolution, q: Query) {
    && run != ""
    && (AddedIn(events, run, resolve) != [] || RemovedIn(events, run, resolve) != [])
    && (q.playbookName.None? || q.playbookName.value == Face(events, run, resolve).playbookName)
    && (q.agentVersion.None? || q.agentVersion.value == Face(events, run, resolve).agentVersion)
  }

  ghost predicate Tells(entry: Entry, events: seq<Event>, run: string, resolve: string -> Resolution) {
    && entry.added == AddedIn(events, run, resolve)
    && entry.removed == RemovedIn(events, run, resolve)
    && (entry.added != [] || entry.removed != [])
    && entry.playbookName == Face(events, run, resolve).playbookName
    && entry.agentVersion == Face(events, run, resolve).agentVersion
    && (entry.mode.FullArchive? <==> ArchivesFully(events, run))
    && exists id :: LastStamp(events, run, entry.createdAt, id)
  }

  // ----- the dictionaries say the same -----------------------------------------------------------------

  lemma ResolvedStep(ids: seq<string>, id: string, resolve: string -> Resolution)
    ensures Resolved(ids + [id], resolve) == Resolved(ids, resolve) + if resolve(id).Found? then [resolve(id).snapshot] else []
  {
    assert (ids + [id])[..|ids|] == ids;
  }

  lemma AddedStep(rest: seq<Event>, e: Event, run: string, resolve: string -> Resolution)
    requires Resolved(Added(OfRun(rest, run)), resolve) == AddedIn(rest, run, resolve)
    ensures Resolved(Added(OfRun(rest + [e], run)), resolve) == AddedIn(rest + [e], run, resolve)
  {
    assert (rest + [e])[..|rest|] == rest;
    OfRunStep(rest, e, run);
    var own := OfRun(rest, run);
    hide OfRun, Added, Removed, Mode, Latest, Resolved;
    if e.requestId == run && Aggregates(e) {
      ResolvedStep(Added(own), e.entityId, resolve);
    } else {
      assert Added(own) + [] == Added(own);
      assert AddedIn(rest, run, resolve) + [] == AddedIn(rest, run, resolve);
    }
  }

  lemma RemovedStep(rest: seq<Event>, e: Event, run: string, resolve: string -> Resolution)
    requires Resolved(Removed(OfRun(rest, run)), resolve) == RemovedIn(rest, run, resolve)
    ensures Resolved(Removed(OfRun(rest + [e], run)), resolve) == RemovedIn(rest + [e], run, resolve)
  {
    assert (rest + [e])[..|rest|] == rest;
    OfRunStep(rest, e, run);
    var own := OfRun(rest, run);
    hide OfRun, Added, Removed, Mode, Latest, Resolved;
    if e.requestId == run && Supersedes(e) {
      ResolvedStep(Removed(own), e.entityId, resolve);
    } else {
      assert Removed(own) + [] == Removed(own);
      assert RemovedIn(rest, run, resolve) + [] == RemovedIn(rest, run, resolve);
    }
  }

  lemma {:induction false} SnapshotsAre(events: seq<Event>, run: string, resolve: string -> Resolution)
    ensures Resolved(Added(OfRun(events, run)), resolve) == AddedIn(events, run, resolve)
    ensures Resolved(Removed(OfRun(events, run)), resolve) == RemovedIn(events, run, resolve)
    decreases |events|
  {
    if events != [] {
      hide OfRun, Added, Removed, Resolved, AddedIn, RemovedIn;
      var n := |events| - 1;
      assert events == events[..n] + [events[n]];
      SnapshotsAre(events[..n], run, resolve);
      AddedStep(events[..n], events[n], run, resolve);
      RemovedStep(events[..n], events[n], run, resolve);
    }
  }

  predicate NoAggregate(events: seq<Event>, run: string) {
    forall i :: 0 <= i < |events| ==> !AggregatedBy(events[i], run)
  }

  lemma ArchiveStep(rest: seq<Event>, e: Event, run: string)
    ensures NoAggregate(rest + [e], run) <==> NoAggregate(rest, run) && !AggregatedBy(e, run)
    ensures ArchivesFully(rest + [e], run) <==>
            if NoAggregate(rest, run) && AggregatedBy(e, run) then e.reason == Some("aggregate:full_archive") else ArchivesFully(rest, run)
  {
    var events := rest + [e];
    assert forall i :: 0 <= i < |rest| ==> events[i] == rest[i];
    assert events[|rest|] == e;
    if ArchivesFully(rest, run) {
      var i :| 0 <= i < |rest| && AggregatedBy(rest[i], run) && rest[i].reason == Some("aggregate:full_archive")
               && forall j :: 0 <= j < i ==> !AggregatedBy(rest[j], run);
      assert AggregatedBy(events[i], run) && forall j :: 0 <= j < i ==> !AggregatedBy(events[j], run);
    }
    if ArchivesFully(events, run) {
      var i :| 0 <= i < |events| && AggregatedBy(events[i], run) && events[i].reason == Some("aggregate:full_archive")
               && forall j :: 0 <= j < i ==> !AggregatedBy(events[j], run);
      if i < |rest| {
        assert AggregatedBy(rest[i], run) && forall j :: 0 <= j < i ==> !AggregatedBy(rest[j], run);
      }
    }
  }

  lemma {:induction false} FirstAggregate(events: seq<Event>, run: string)
    ensures Added(OfRun(events, run)) == [] <==> NoAggregate(events, run)
    ensures Mode(OfRun(events, run)).FullArchive? <==> ArchivesFully(events, run)
    decreases |events|
  {
    if events != [] {
      hide OfRun, Added, Mode, Latest, Removed, ArchivesFully, NoAggregate;
      var n := |events| - 1;
      assert events == events[..n] + [events[n]];
      FirstAggregate(events[..n], run);
      OfRunStep(events[..n], events[n], run);
      ArchiveStep(events[..n], events[n], run);
      assert PREFIX + "full_archive" == "aggregate:full_archive";
    }
  }

  lemma StampStep(rest: seq<Event>, e: Event, run: string, created: int, id: int)
    requires LastStamp(rest, run, created, id)
    ensures if e.requestId == run && !NoLater(e.createdAt, e.eventId, created, id)
            then LastStamp(rest + [e], run, e.createdAt, e.eventId)
            else LastStamp(rest + [e], run, created, id)
  {
    var events := rest + [e];
    assert forall i :: 0 <= i < |rest| ==> events[i] == rest[i];
    assert events[|rest|] == e;
    if !(created == 0 && id == 0) {
      var i :| 0 <= i < |rest| && rest[i].requestId == run && rest[i].createdAt == created && rest[i].eventId == id;
      assert events[i] == rest[i];
    }
  }

  lemma {:induction false} LatestIs(events: seq<Event>, run: string)
    ensures var last := Latest(OfRun(events, run)); LastStamp(events, run, last.createdAt, last.eventId)
    decreases |events|
  {
    if events != [] {
      hide OfRun, Added, Mode, Latest, Removed, LastStamp;
      var n := |events| - 1;
      assert events == events[..n] + [events[n]];
      LatestIs(events[..n], run);
      OfRunStep(events[..n], events[n], run);
      var before := Latest(OfRun(events[..n], run));
      StampStep(events[..n], events[n], run, before.createdAt, before.eventId);
    }
  }

  /** There is one such stamp. */
  lemma StampIsLatest(events: seq<Event>, run: string, created: int, id: int)
    requires LastStamp(events, run, created, id)
    ensures Rank(created, id) == Latest(OfRun(events, run))
  {
    LatestIs(events, run);
  }

  /** One run, one entry: it is on the unlimited page exactly when wanted, and tells the run's own
      events; it is left out exactly when nothing of the run is found or the query names another
      playbook or version. */
  lemma EntryIs(events: seq<Event>, run: string, resolve: string -> Resolution, q: Query)
    requires run != ""
    ensures Chosen(OfRun(events, run), resolve, q).Some? <==> Wanted(events, run, resolve, q)
    ensures Chosen(OfRun(events, run), resolve, q).Some? ==> Tells(Chosen(OfRun(events, run), resolve, q).value, events, run, resolve)
  {
    SnapshotsAre(events, run, resolve);
    FirstAggregate(events, run);
    LatestIs(events, run);
    hide OfRun, Added, Removed, Mode, Latest, Resolved, AddedIn, RemovedIn, ArchivesFully, LastStamp;
  }

  lemma CandidateIsNamed(events: seq<Event>, run: string, resolve: string -> Resolution, q: Query)
    ensures run in Candidates(events) ==> run != ""
    ensures Wanted(events, run, resolve, q) ==> run in Candidates(events)
  {
    CandidateIff(events, run);
    SnapshotsAre(events, run, resolve);
    hide OfRun, Added, Removed, AddedIn, RemovedIn;
  }

  // ----- a whole page ----------------------------------------------------------------------------------------

  /** The entries are those of `shown`: distinct wanted runs, each telling its own events, the most
      recent first, and no wanted run left out is more recent than one that is shown. */
  ghost predicate PageTells(page: seq<Entry>, shown: seq<string>, events: seq<Event>, resolve: string -> Resolution, q: Query) {
    && |shown| == |page|
    && (forall i, j :: 0 <= i < j < |shown| ==> shown[i] != shown[j])
    && (forall i :: 0 <= i < |shown| ==> Wanted(events, shown[i], resolve, q) && Tells(page[i], events, shown[i], resolve))
    && (forall i, j :: 0 <= i < j < |shown| ==> NotBefore(events, shown[i], shown[j]))
    && (forall run, i :: Wanted(events, run, resolve, q) && run !in shown && 0 <= i < |shown| ==> NotBefore(events, shown[i], run))
  }

  ghost predicate NotBefore(events: seq<Event>, run: string, other: string) {
    forall c, n, d, m :: LastStamp(events, run, c, n) && LastStamp(events, other, d, m) ==> NoLater(d, m, c, n)
  }

  lemma RankedNotBefore(events: seq<Event>, run: string, other: string)
    requires run in Candidates(events) && other in Candidates(events)
    requires !Less(RankOf(Ranks(events), run), RankOf(Ranks(events), other))
    ensures NotBefore(events, run, other)
  {
    hide Candidates, OfRun, Latest, LastStamp;
    forall c, n, d, m | LastStamp(events, run, c, n) && LastStamp(events, other, d, m)
      ensures NoLater(d, m, c, n)
    {
      StampIsLatest(events, run, c, n);
      StampIsLatest(events, other, d, m);
    }
  }

  /** For every log, query, limit and way the set of runs iterates: the page tells distinct wanted
      runs, most recent first, and holds as many as the limit allows: it is full, or no wanted run
      is missing. */
  lemma PageIs(events: seq<Event>, order: seq<string>, resolve: string -> Resolution, q: Query, limit: int)
    requires Enumerates(order, Candidates(events))
    ensures limit <= 0 ==> Page(events, order, resolve, q, limit) == []
    ensures exists shown ::
              && PageTells(Page(events, order, resolve, q, limit), shown, events, resolve, q)
              && (limit > 0 ==> |shown| <= limit && (|shown| < limit ==> forall run :: Wanted(events, run, resolve, q) ==> run in shown))
  {
    hide Candidates, OfRun, Chosen, SortDescending, Ranks, RankOf, Less, Wanted, Tells, NotBefore;
    var ranks := Ranks(events);
    var sorted := SortDescending(order, ranks);
    ChangeLogPages.ShownFacts(events, order, resolve, q);
    var all, whole := Shown(events, sorted, resolve, q), Visible(events, sorted, resolve, q);
    var page := Page(events, order, resolve, q, limit);
    var shown := all[..|page|];
    forall run
      ensures run in all <==> Wanted(events, run, resolve, q)
      ensures run in all ==> run in Candidates(events) && run != ""
    {
      CandidateIsNamed(events, run, resolve, q);
      if run != "" { EntryIs(events, run, resolve, q); }
    }
    forall i | 0 <= i < |shown|
      ensures Wanted(events, shown[i], resolve, q) && Tells(page[i], events, shown[i], resolve)
    {
      assert all[i] in all && page[i] == whole[i];
      EntryIs(events, all[i], resolve, q);
    }
    forall i, j | 0 <= i < j < |all|
      ensures NotBefore(events, all[i], all[j])
    {
      assert all[i] in all && all[j] in all;
      RankedNotBefore(events, all[i], all[j]);
    }
    assert forall k :: 0 <= k < |page| ==> all[k] in shown by {
      assert forall k :: 0 <= k < |page| ==> shown[k] == all[k];
    }
    forall run, i | Wanted(events, run, resolve, q) && run !in shown && 0 <= i < |shown|
      ensures NotBefore(events, shown[i], run)
    {
      assert run in all;
      var j :| 0 <= j < |all| && all[j] == run;
      assert j >= |page|;
    }
    assert PageTells(page, shown, events, resolve, q);
  }
}
