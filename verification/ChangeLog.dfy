/** Rebuilding the aggregation change log from lineage events: a one-pass grouping into
    dictionaries, a sort, and a loop that stops once the page is full. The page is proved to be
    the plain group, sort, filter and take. */
module ChangeLog {
  import opened Wrappers

  datatype Event = Event(
    requestId: string, eventId: int, createdAt: int,
    op: string, toStatus: Option<string>, entityId: string, reason: Option<string>)

  datatype Snapshot = Snapshot(playbookName: string, agentVersion: string, content: string)

  /** Resolving an event's entity, tombstones included. */
  datatype Resolution = Malformed | Purged | Found(snapshot: Snapshot)

  datatype RunMode = FullArchive | Incremental

  datatype Entry = Entry(
    playbookName: string, agentVersion: string, mode: RunMode,
    added: seq<Snapshot>, removed: seq<Snapshot>, createdAt: int)

  /** Ordered by time, then by event number. */
  datatype Rank = Rank(createdAt: int, eventId: int)

  predicate Less(x: Rank, y: Rank) {
    x.createdAt < y.createdAt || (x.createdAt == y.createdAt && x.eventId < y.eventId)
  }

  const ORIGIN := Rank(0, 0)
  const PREFIX := "aggregate:"

  predicate Aggregates(e: Event) {
    e.op == "aggregate"
  }

  predicate Supersedes(e: Event) {
    e.op == "status_change" && e.toStatus == Some("superseded")
  }

  function ModeOf(reason: Option<string>): RunMode {
    if reason == Some(PREFIX + "full_archive") then FullArchive else Incremental
  }

  // ----- the specification ---------------------------------------------------------------------

  /** One run's events. */
  function OfRun(events: seq<Event>, run: string): seq<Event> {
    if events == [] then []
    else OfRun(events[..|events| - 1], run)
         + (if events[|events| - 1].requestId == run then [events[|events| - 1]] else [])
  }

  function Added(events: seq<Event>): seq<string> {
    if events == [] then []
    else Added(events[..|events| - 1]) + (if Aggregates(events[|events| - 1]) then [events[|events| - 1].entityId] else [])
  }

  function Removed(events: seq<Event>): seq<string> {
    if events == [] then []
    else Removed(events[..|events| - 1])
         + (if Supersedes(events[|events| - 1]) then [events[|events| - 1].entityId] else [])
  }

  /** The most recent event, no earlier than the origin. */
  function Latest(events: seq<Event>): Rank {
    if events == [] then ORIGIN
    else
      var e, rest := events[|events| - 1], Latest(events[..|events| - 1]);
      if Less(rest, Rank(e.createdAt, e.eventId)) then Rank(e.createdAt, e.eventId) else rest
  }

  /** The first aggregate event names the mode. */
  function Mode(events: seq<Event>): RunMode {
    if events == [] then Incremental
    else if Added(events[..|events| - 1]) == [] && Aggregates(events[|events| - 1]) then ModeOf(events[|events| - 1].reason)
    else Mode(events[..|events| - 1])
  }

  ghost function Candidates(events: seq<Event>): set<string> {
    set e | e in events && e.requestId != "" && (Aggregates(e) || Supersedes(e)) :: e.requestId
  }

  function Resolved(ids: seq<string>, resolve: string -> Resolution): seq<Snapshot> {
    if ids == [] then []
    else Resolved(ids[..|ids| - 1], resolve)
         + (match resolve(ids[|ids| - 1]) case Found(snapshot) => [snapshot] case _ => [])
  }

  /** What one run's own events say, or nothing when no snapshot of it survives. */
  function RunEntry(own: seq<Event>, resolve: string -> Resolution): Option<Entry> {
    var added, removed := Resolved(Added(own), resolve), Resolved(Removed(own), resolve);
    if added == [] && removed == [] then None
    else
      var first := if added != [] then added[0] else removed[0];
      Some(Entry(first.playbookName, first.agentVersion, Mode(own), added, removed, Latest(own).createdAt))
  }

  datatype Query = Query(playbookName: Option<string>, agentVersion: Option<string>)

  predicate Matches(q: Query, entry: Entry) {
    && (q.playbookName.Some? ==> entry.playbookName == q.playbookName.value)
    && (q.agentVersion.Some? ==> entry.agentVersion == q.agentVersion.value)
  }

  /** The run's entry, if it has one and the query wants it. */
  function Chosen(own: seq<Event>, resolve: string -> Resolution, q: Query): Option<Entry> {
    match RunEntry(own, resolve)
    case Some(entry) => if Matches(q, entry) then Some(entry) else None
    case None => None
  }

  /** Every matching entry, in the order of `runs`. */
  function Visible(events: seq<Event>, runs: seq<string>, resolve: string -> Resolution, q: Query): seq<Entry> {
    if runs == [] then []
    else Visible(events, runs[..|runs| - 1], resolve, q)
         + (match Chosen(OfRun(events, runs[|runs| - 1]), resolve, q) case Some(entry) => [entry] case None => [])
  }

  function Take<T>(s: seq<T>, n: int): seq<T> {
    if n <= 0 then [] else if |s| <= n then s else s[..n]
  }

  /** Descending, equals in their original order. */
  function SortDescending(runs: seq<string>, ranks: map<string, Rank>): seq<string> {
    if runs == [] then [] else InsertDescending(runs[0], SortDescending(runs[1..], ranks), ranks)
  }

  function InsertDescending(run: string, sorted: seq<string>, ranks: map<string, Rank>): seq<string> {
    if sorted == [] || !Less(RankOf(ranks, run), RankOf(ranks, sorted[0])) then [run] + sorted
    else [sorted[0]] + InsertDescending(run, sorted[1..], ranks)
  }

  function RankOf(ranks: map<string, Rank>, run: string): Rank {
    if run in ranks then ranks[run] else ORIGIN
  }

  ghost function Ranks(events: seq<Event>): map<string, Rank> {
    map run | run in Candidates(events) :: Latest(OfRun(events, run))
  }

  /** `order` lists the set without repetition: one way its iteration may go. */
  ghost predicate Enumerates(order: seq<string>, runs: set<string>) {
    && (forall run :: run in order <==> run in runs)
    && (forall i, j :: 0 <= i < j < |order| ==> order[i] != order[j])
  }

  ghost function Page(events: seq<Event>, order: seq<string>, resolve: string -> Resolution, q: Query, limit: int): seq<Entry> {
    Take(Visible(events, SortDescending(order, Ranks(events)), resolve, q), limit)
  }

  // ----- the reconstruction ------------------------------------------------------------------------

  function Known(m: map<string, seq<string>>, run: string): seq<string> {
    if run in m then m[run] else []
  }

  datatype Groups = Groups(
    added: map<string, seq<string>>, removed: map<string, seq<string>>, modes: map<string, RunMode>, ranks: map<string, Rank>)

  /** The dictionaries hold what each run's own events say. */
  ghost predicate Grouped(events: seq<Event>, g: Groups) {
    forall run :: GroupedRun(events, g, run)
  }

  ghost predicate GroupedRun(events: seq<Event>, g: Groups, run: string) {
    var own := if run == "" then [] else OfRun(events, run);
    && Known(g.added, run) == Added(own) && (run in g.added <==> Added(own) != [])
    && Known(g.removed, run) == Removed(own) && (run in g.removed <==> Removed(own) != [])
    && (run in g.modes <==> Added(own) != []) && (if run in g.modes then g.modes[run] else Incremental) == Mode(own)
    && RankOf(g.ranks, run) == Latest(own)
  }

  function Absorb(g: Groups, e: Event): Groups {
    var run := e.requestId;
    if run == "" then g
    else
      var ranked := if Less(RankOf(g.ranks, run), Rank(e.createdAt, e.eventId))
                    then g.(ranks := g.ranks[run := Rank(e.createdAt, e.eventId)]) else g;
      if Aggregates(e) then
        ranked.(added := g.added[run := Known(g.added, run) + [e.entityId]],
                modes := if run in g.modes then g.modes else g.modes[run := ModeOf(e.reason)])
      else if Supersedes(e) then ranked.(removed := g.removed[run := Known(g.removed, run) + [e.entityId]])
      else ranked
  }

  /** An event of another run, or of none, leaves this run's entries alone. */
  lemma AbsorbOther(g: Groups, e: Event, run: string)
    requires e.requestId != run || run == ""
    ensures var h := Absorb(g, e);
            && (run in h.added <==> run in g.added) && Known(h.added, run) == Known(g.added, run)
            && (run in h.removed <==> run in g.removed) && Known(h.removed, run) == Known(g.removed, run)
            && (run in h.modes <==> run in g.modes) && (run in h.modes ==> h.modes[run] == g.modes[run])
            && RankOf(h.ranks, run) == RankOf(g.ranks, run)
  {
  }

  lemma AbsorbGrouped(events: seq<Event>, g: Groups, e: Event, run: string)
    requires GroupedRun(events, g, run)
    ensures GroupedRun(events + [e], Absorb(g, e), run)
  {
    hide OfRun, Added, Removed, Mode, Latest, ModeOf;
    OfRunStep(events, e, run);
    if e.requestId != run || run == "" {
      hide Absorb;
      AbsorbOther(g, e, run);
    }
  }

  method GroupEvents(events: seq<Event>) returns (g: Groups)
    ensures Grouped(events, g)
  {
    var added, removed, modes, ranks := map[], map[], map[], map[];
    for i := 0 to |events|
      invariant Grouped(events[..i], Groups(added, removed, modes, ranks))
    {
      hide GroupedRun;
      var e := events[i];
      ghost var before := Groups(added, removed, modes, ranks);
      if e.requestId != "" {
        var run := e.requestId;
        if Less(RankOf(ranks, run), Rank(e.createdAt, e.eventId)) {
          ranks := ranks[run := Rank(e.createdAt, e.eventId)];
        }
        if e.op == "aggregate" {
          added := added[run := Known(added, run) + [e.entityId]];
          if run !in modes {
            modes := modes[run := ModeOf(e.reason)];
          }
        } else if e.op == "status_change" && e.toStatus == Some("superseded") {
          removed := removed[run := Known(removed, run) + [e.entityId]];
        }
      }
      assert Groups(added, removed, modes, ranks) == Absorb(before, e);
      ghost var seen := events[..i + 1];
      assert seen == events[..i] + [e];
      forall run
        ensures GroupedRun(seen, Absorb(before, e), run)
      {
        AbsorbGrouped(events[..i], before, e, run);
      }
    }
    assert events[..|events|] == events;
    return Groups(added, removed, modes, ranks);
  }

  lemma OfRunStep(events: seq<Event>, e: Event, run: string)
    ensures OfRun(events + [e], run) == if e.requestId == run then OfRun(events, run) + [e] else OfRun(events, run)
    ensures e.requestId == run ==>
              var own := OfRun(events, run);
              && Added(own + [e]) == Added(own) + (if Aggregates(e) then [e.entityId] else [])
              && Removed(own + [e]) == Removed(own) + (if Supersedes(e) then [e.entityId] else [])
              && Mode(own + [e]) == (if Added(own) == [] && Aggregates(e) then ModeOf(e.reason) else Mode(own))
              && Latest(own + [e]) == (if Less(Latest(own), Rank(e.createdAt, e.eventId)) then Rank(e.createdAt, e.eventId) else Latest(own))
  {
    assert (events + [e])[..|events|] == events;
    var own := OfRun(events, run);
    assert (own + [e])[..|own|] == own;
  }

  // ----- grouping --------------------------------------------------------------------------------

  lemma {:induction false} RunSpoke(events: seq<Event>, run: string)
    ensures Added(OfRun(events, run)) != [] || Removed(OfRun(events, run)) != [] <==>
            exists e :: e in events && e.requestId == run && (Aggregates(e) || Supersedes(e))
    decreases |events|
  {
    if events != [] {
      var n := |events| - 1;
      RunSpoke(events[..n], run);
      OfRunStep(events[..n], events[n], run);
      assert events == events[..n] + [events[n]];
    }
  }

  lemma CandidateIff(events: seq<Event>, run: string)
    ensures run in Candidates(events) <==>
            run != "" && (Added(OfRun(events, run)) != [] || Removed(OfRun(events, run)) != [])
  {
    RunSpoke(events, run);
  }

  lemma CandidatesGrouped(events: seq<Event>, g: Groups)
    requires Grouped(events, g)
    ensures g.added.Keys + g.removed.Keys == Candidates(events)
  {
    forall run
      ensures run in g.added.Keys + g.removed.Keys <==> run in Candidates(events)
    {
      assert GroupedRun(events, g, run);
      CandidateIff(events, run);
    }
  }

  method ResolveAll(ids: seq<string>, resolve: string -> Resolution) returns (snapshots: seq<Snapshot>)
    ensures snapshots == Resolved(ids, resolve)
  {
    snapshots := [];
    for i := 0 to |ids|
      invariant snapshots == Resolved(ids[..i], resolve)
    {
      assert ids[..i + 1][..i] == ids[..i];
      match resolve(ids[i]) {
        case Malformed =>
        case Purged =>
        case Found(snapshot) => snapshots := snapshots + [snapshot];
      }
    }
    assert ids[..|ids|] == ids;
  }

  // ----- sorting --------------------------------------------------------------------------------

  lemma {:induction false} InsertMembers(run: string, sorted: seq<string>, ranks: map<string, Rank>)
    ensures multiset(InsertDescending(run, sorted, ranks)) == multiset(sorted) + multiset{run}
    decreases |sorted|
  {
    if sorted != [] && Less(RankOf(ranks, run), RankOf(ranks, sorted[0])) {
      InsertMembers(run, sorted[1..], ranks);
      assert sorted == [sorted[0]] + sorted[1..];
    }
  }

  lemma {:induction false} SortKeeps(runs: seq<string>, ranks: map<string, Rank>)
    ensures multiset(SortDescending(runs, ranks)) == multiset(runs)
    decreases |runs|
  {
    if runs != [] {
      SortKeeps(runs[1..], ranks);
      InsertMembers(runs[0], SortDescending(runs[1..], ranks), ranks);
      assert runs == [runs[0]] + runs[1..];
    }
  }

  lemma SameMembers(s: seq<string>, t: seq<string>)
    requires multiset(s) == multiset(t)
    ensures forall run :: run in s <==> run in t
  {
    assert forall run :: run in s <==> run in multiset(s);
    assert forall run :: run in t <==> run in multiset(t);
  }

  lemma SortMembers(runs: seq<string>, ranks: map<string, Rank>)
    ensures multiset(SortDescending(runs, ranks)) == multiset(runs)
    ensures forall run :: run in SortDescending(runs, ranks) <==> run in runs
  {
    hide SortDescending;
    SortKeeps(runs, ranks);
    SameMembers(SortDescending(runs, ranks), runs);
  }

  lemma {:induction false} InsertAgrees(run: string, sorted: seq<string>, r: map<string, Rank>, t: map<string, Rank>)
    requires RankOf(r, run) == RankOf(t, run) && forall x :: x in sorted ==> RankOf(r, x) == RankOf(t, x)
    ensures InsertDescending(run, sorted, r) == InsertDescending(run, sorted, t)
    decreases |sorted|
  {
    if sorted != [] {
      InsertAgrees(run, sorted[1..], r, t);
    }
  }

  lemma {:induction false} SortAgrees(runs: seq<string>, r: map<string, Rank>, t: map<string, Rank>)
    requires forall x :: x in runs ==> RankOf(r, x) == RankOf(t, x)
    ensures SortDescending(runs, r) == SortDescending(runs, t)
    decreases |runs|
  {
    if runs != [] {
      SortAgrees(runs[1..], r, t);
      SortMembers(runs[1..], r);
      InsertAgrees(runs[0], SortDescending(runs[1..], r), r, t);
    }
  }

  predicate Descending(runs: seq<string>, ranks: map<string, Rank>) {
    forall i, j :: 0 <= i < j < |runs| ==> !Less(RankOf(ranks, runs[i]), RankOf(ranks, runs[j]))
  }

  lemma {:induction false} InsertSorts(run: string, sorted: seq<string>, ranks: map<string, Rank>)
    requires Descending(sorted, ranks)
    ensures Descending(InsertDescending(run, sorted, ranks), ranks)
    decreases |sorted|
  {
    if sorted != [] && Less(RankOf(ranks, run), RankOf(ranks, sorted[0])) {
      var rest := InsertDescending(run, sorted[1..], ranks);
      InsertSorts(run, sorted[1..], ranks);
      InsertMembers(run, sorted[1..], ranks);
      forall x | x in rest
        ensures !Less(RankOf(ranks, sorted[0]), RankOf(ranks, x))
      {
        assert x in multiset(rest);
        assert x == run || x in sorted[1..];
      }
    }
  }

  lemma {:induction false} SortSorts(runs: seq<string>, ranks: map<string, Rank>)
    ensures Descending(SortDescending(runs, ranks), ranks)
    decreases |runs|
  {
    if runs != [] {
      SortSorts(runs[1..], ranks);
      InsertSorts(runs[0], SortDescending(runs[1..], ranks), ranks);
    }
  }

  ghost predicate Distinct(runs: seq<string>) {
    forall i, j :: 0 <= i < j < |runs| ==> runs[i] != runs[j]
  }

  lemma {:induction false} DistinctByCount(runs: seq<string>)
    ensures Distinct(runs) <==> forall run :: multiset(runs)[run] <= 1
    decreases |runs|
  {
    if runs != [] {
      assert runs == [runs[0]] + runs[1..];
      DistinctByCount(runs[1..]);
      if Distinct(runs) {
        assert Distinct(runs[1..]);
        assert runs[0] !in runs[1..];
      } else if forall run :: multiset(runs)[run] <= 1 {
        assert multiset(runs)[runs[0]] == 1 + multiset(runs[1..])[runs[0]];
        assert runs[0] !in multiset(runs[1..]);
        forall run
          ensures multiset(runs[1..])[run] <= 1
        {
          assert multiset(runs[1..])[run] <= multiset(runs)[run];
        }
        assert false;
      }
    }
  }

  lemma SortDistinct(runs: seq<string>, ranks: map<string, Rank>)
    requires Distinct(runs)
    ensures Distinct(SortDescending(runs, ranks))
  {
    SortMembers(runs, ranks);
    DistinctByCount(runs);
    DistinctByCount(SortDescending(runs, ranks));
  }

  // ----- the loop ---------------------------------------------------------------------------------

  /** What has been collected is a prefix of what would be. */
  lemma {:induction false} VisiblePrefix(events: seq<Event>, runs: seq<string>, resolve: string -> Resolution, q: Query, n: nat)
    requires n <= |runs|
    ensures Visible(events, runs[..n], resolve, q) <= Visible(events, runs, resolve, q)
    decreases |runs|
  {
    if n == |runs| {
      assert runs[..n] == runs;
    } else {
      var shorter := runs[..|runs| - 1];
      VisiblePrefix(events, shorter, resolve, q, n);
      assert shorter[..n] == runs[..n];
    }
  }

  /** One run's entry from the dictionaries, unless nothing of it survives or the query
      leaves it out. */
  method BuildEntry(g: Groups, run: string, resolve: string -> Resolution, q: Query, ghost own: seq<Event>) returns (entry: Option<Entry>)
    requires Known(g.added, run) == Added(own) && Known(g.removed, run) == Removed(own) && RankOf(g.ranks, run) == Latest(own)
    requires (if run in g.modes then g.modes[run] else Incremental) == Mode(own)
    ensures entry == Chosen(own, resolve, q)
  {
    var added := ResolveAll(Known(g.added, run), resolve);
    var removed := ResolveAll(Known(g.removed, run), resolve);
    if added == [] && removed == [] { return None; }
    var first := if added != [] then added[0] else removed[0];
    if q.playbookName.Some? && first.playbookName != q.playbookName.value { return None; }
    if q.agentVersion.Some? && first.agentVersion != q.agentVersion.value { return None; }
    var mode := if run in g.modes then g.modes[run] else Incremental;
    return Some(Entry(first.playbookName, first.agentVersion, mode, added, removed, RankOf(g.ranks, run).createdAt));
  }

  lemma RankAgrees(events: seq<Event>, g: Groups, run: string)
    requires Grouped(events, g) && run in Candidates(events)
    ensures run != "" && RankOf(g.ranks, run) == RankOf(Ranks(events), run) && GroupedRun(events, g, run)
  {
    CandidateIff(events, run);
    assert GroupedRun(events, g, run);
  }

  /** Sorting by the collected ranks is sorting by the runs' own, and loses no run. */
  lemma SortedRuns(events: seq<Event>, g: Groups, order: seq<string>)
    requires Grouped(events, g) && Enumerates(order, Candidates(events))
    ensures Enumerates(order, g.added.Keys + g.removed.Keys)
    ensures SortDescending(order, g.ranks) == SortDescending(order, Ranks(events))
    ensures forall i :: 0 <= i < |SortDescending(order, g.ranks)| ==>
              var run := SortDescending(order, g.ranks)[i]; run != "" && GroupedRun(events, g, run)
  {
    hide Grouped, GroupedRun, Candidates, SortDescending, RankOf, Ranks;
    CandidatesGrouped(events, g);
    forall run | run in order
      ensures RankOf(g.ranks, run) == RankOf(Ranks(events), run) && run != "" && GroupedRun(events, g, run)
    {
      RankAgrees(events, g, run);
    }
    SortAgrees(order, g.ranks, Ranks(events));
    SortMembers(order, g.ranks);
    var sorted := SortDescending(order, g.ranks);
    forall i | 0 <= i < |sorted|
      ensures sorted[i] != "" && GroupedRun(events, g, sorted[i])
    {
      assert sorted[i] in sorted;
    }
  }

  /** `order` is however the set of runs happens to iterate. */
  method Reconstruct(events: seq<Event>, order: seq<string>, resolve: string -> Resolution, q: Query, limit: int) returns (logs: seq<Entry>)
    requires Enumerates(order, Candidates(events))
    ensures logs == Page(events, order, resolve, q, limit)
  {
    hide OfRun, Chosen, Candidates, SortDescending, RankOf, Ranks, Added, Removed, Mode, Latest, Enumerates, Grouped;
    if limit <= 0 { return []; }
    var g := GroupEvents(events);
    SortedRuns(events, g, order);
    assert Enumerates(order, g.added.Keys + g.removed.Keys);
    var sorted := SortDescending(order, g.ranks);
    logs := [];
    for i := 0 to |sorted|
      invariant logs == Visible(events, sorted[..i], resolve, q)
      invariant |logs| < limit
    {
      var run := sorted[i];
      assert sorted[..i + 1][..i] == sorted[..i];
      assert run != "" && GroupedRun(events, g, run);
      var entry := BuildEntry(g, run, resolve, q, OfRun(events, run));
      if entry.None? { continue; }
      logs := logs + [entry.value];
      if |logs| >= limit {
        VisiblePrefix(events, sorted, resolve, q, i + 1);
        return;
      }
    }
    assert sorted[..|sorted|] == sorted;
  }

  // ----- what the page is ----------------------------------------------------------------------------

  /** A longer page starts with the shorter one. */
  lemma PagesNest(events: seq<Event>, order: seq<string>, resolve: string -> Resolution, q: Query, k: int, m: int)
    requires k <= m
    ensures Page(events, order, resolve, q, k) <= Page(events, order, resolve, q, m)
    ensures |Page(events, order, resolve, q, m)| <= if m <= 0 then 0 else m
  {
    hide Visible, SortDescending, Ranks;
  }

  /** The runs behind the visible entries. */
  function Shown(events: seq<Event>, runs: seq<string>, resolve: string -> Resolution, q: Query): seq<string> {
    if runs == [] then []
    else Shown(events, runs[..|runs| - 1], resolve, q)
         + (if Chosen(OfRun(events, runs[|runs| - 1]), resolve, q).Some? then [runs[|runs| - 1]] else [])
  }

  lemma {:induction false} ShownRuns(events: seq<Event>, runs: seq<string>, resolve: string -> Resolution, q: Query)
    requires Distinct(runs)
    ensures |Shown(events, runs, resolve, q)| == |Visible(events, runs, resolve, q)|
    ensures forall i :: 0 <= i < |Shown(events, runs, resolve, q)| ==>
              Chosen(OfRun(events, Shown(events, runs, resolve, q)[i]), resolve, q) == Some(Visible(events, runs, resolve, q)[i])
    ensures Distinct(Shown(events, runs, resolve, q))
    ensures forall run :: run in Shown(events, runs, resolve, q) <==> run in runs && Chosen(OfRun(events, run), resolve, q).Some?
    decreases |runs|
  {
    hide Chosen, OfRun;
    if runs != [] {
      var n := |runs| - 1;
      ShownRuns(events, runs[..n], resolve, q);
      assert runs == runs[..n] + [runs[n]];
      assert runs[n] !in runs[..n];
    }
  }

  lemma {:induction false} ShownDescending(events: seq<Event>, runs: seq<string>, resolve: string -> Resolution, q: Query, ranks: map<string, Rank>)
    requires Descending(runs, ranks)
    ensures Descending(Shown(events, runs, resolve, q), ranks)
    ensures forall run :: run in Shown(events, runs, resolve, q) ==> run in runs
    decreases |runs|
  {
    hide Chosen, OfRun, RankOf, Less;
    if runs != [] {
      var n := |runs| - 1;
      ShownDescending(events, runs[..n], resolve, q, ranks);
      assert runs == runs[..n] + [runs[n]];
      forall x | x in Shown(events, runs[..n], resolve, q)
        ensures !Less(RankOf(ranks, x), RankOf(ranks, runs[n]))
      {
        assert x in runs[..n];
      }
    }
  }

  /** The unlimited page has one entry for each run whose entry the query wants and none for
      any other: no run appears twice, no two runs share an entry, and the entry is made from
      that run's own events alone, most recent run first. */
  lemma PageExact(events: seq<Event>, order: seq<string>, resolve: string -> Resolution, q: Query)
    requires Enumerates(order, Candidates(events))
    ensures var sorted := SortDescending(order, Ranks(events));
            var shown, page := Shown(events, sorted, resolve, q), Visible(events, sorted, resolve, q);
            && |shown| == |page| && Distinct(shown)
            && (forall run :: run in shown <==> run in Candidates(events) && Chosen(OfRun(events, run), resolve, q).Some?)
            && (forall i :: 0 <= i < |page| ==> Chosen(OfRun(events, shown[i]), resolve, q) == Some(page[i]))
            && (forall i, j :: 0 <= i < j < |page| ==> page[j].createdAt <= page[i].createdAt)
  {
    hide Candidates, OfRun, Chosen, SortDescending, Ranks;
    var ranks := Ranks(events);
    var sorted := SortDescending(order, ranks);
    SortMembers(order, ranks);
    SortDistinct(order, ranks);
    SortSorts(order, ranks);
    ShownRuns(events, sorted, resolve, q);
    ShownDescending(events, sorted, resolve, q, ranks);
    var shown, page := Shown(events, sorted, resolve, q), Visible(events, sorted, resolve, q);
    forall i, j | 0 <= i < j < |page|
      ensures page[j].createdAt <= page[i].createdAt
    {
      assert !Less(RankOf(ranks, shown[i]), RankOf(ranks, shown[j]));
      assert shown[i] in shown && shown[j] in shown;
      EntryTime(events, shown[i], resolve, q);
      EntryTime(events, shown[j], resolve, q);
    }
  }

  lemma EntryTime(events: seq<Event>, run: string, resolve: string -> Resolution, q: Query)
    requires run in Candidates(events) && Chosen(OfRun(events, run), resolve, q).Some?
    ensures Chosen(OfRun(events, run), resolve, q).value.createdAt == RankOf(Ranks(events), run).createdAt
  {
    hide OfRun, Latest, Candidates;
  }

  /** Another run's events, an event with no run, or one of no interest, wherever it stands in
      the log, changes nothing in this run's entry. */
  lemma {:induction false} RunsNeverMerge(before: seq<Event>, e: Event, after: seq<Event>, run: string)
    requires e.requestId != run
    ensures OfRun(before + [e] + after, run) == OfRun(before + after, run)
    decreases |after|
  {
    if after == [] {
      OfRunStep(before, e, run);
      assert before + [e] + after == before + [e];
      assert before + after == before;
    } else {
      var n := |after| - 1;
      RunsNeverMerge(before, e, after[..n], run);
      assert before + [e] + after == (before + [e] + after[..n]) + [after[n]];
      assert before + after == (before + after[..n]) + [after[n]];
      OfRunStep(before + [e] + after[..n], after[n], run);
      OfRunStep(before + after[..n], after[n], run);
    }
  }

  // ----- stability ---------------------------------------------------------------------------------------

  predicate Before(s: seq<string>, x: string, y: string) {
    exists i, j :: 0 <= i < j < |s| && s[i] == x && s[j] == y
  }

  lemma {:induction false} InsertKeepsOrder(run: string, sorted: seq<string>, ranks: map<string, Rank>, x: string, y: string)
    requires Before(sorted, x, y)
    ensures Before(InsertDescending(run, sorted, ranks), x, y)
    decreases |sorted|
  {
    var i, j :| 0 <= i < j < |sorted| && sorted[i] == x && sorted[j] == y;
    if !Less(RankOf(ranks, run), RankOf(ranks, sorted[0])) {
      LaterBefore(run, sorted, x, y);
    } else {
      var rest := InsertDescending(run, sorted[1..], ranks);
      if i == 0 {
        assert sorted[1..][j - 1] == y;
        InsertMembers(run, sorted[1..], ranks);
        HeadBefore(sorted[0], rest, y);
      } else {
        assert sorted[1..][i - 1] == x && sorted[1..][j - 1] == y;
        InsertKeepsOrder(run, sorted[1..], ranks, x, y);
        LaterBefore(sorted[0], rest, x, y);
      }
    }
  }

  /** An inserted run goes before those of equal rank. */
  lemma {:induction false} InsertsBefore(run: string, sorted: seq<string>, ranks: map<string, Rank>, y: string)
    requires y in sorted && RankOf(ranks, run) == RankOf(ranks, y) && Descending(sorted, ranks)
    ensures Before(InsertDescending(run, sorted, ranks), run, y)
    decreases |sorted|
  {
    if !Less(RankOf(ranks, run), RankOf(ranks, sorted[0])) {
      assert y in multiset(sorted);
      HeadBefore(run, sorted, y);
    } else {
      assert y in sorted[1..];
      InsertsBefore(run, sorted[1..], ranks, y);
      LaterBefore(sorted[0], InsertDescending(run, sorted[1..], ranks), run, y);
    }
  }

  lemma HeadBefore(first: string, rest: seq<string>, y: string)
    requires y in multiset(rest)
    ensures Before([first] + rest, first, y)
  {
    var k :| 0 <= k < |rest| && rest[k] == y;
    assert ([first] + rest)[0] == first && ([first] + rest)[k + 1] == y;
  }

  lemma LaterBefore(first: string, rest: seq<string>, x: string, y: string)
    requires Before(rest, x, y)
    ensures Before([first] + rest, x, y)
  {
    var i, j :| 0 <= i < j < |rest| && rest[i] == x && rest[j] == y;
    assert ([first] + rest)[i + 1] == x && ([first] + rest)[j + 1] == y;
  }

  /** Equal ranks keep the order they came in. */
  lemma {:induction false} SortIsStable(runs: seq<string>, ranks: map<string, Rank>, x: string, y: string)
    requires Before(runs, x, y) && RankOf(ranks, x) == RankOf(ranks, y)
    ensures Before(SortDescending(runs, ranks), x, y)
    decreases |runs|
  {
    var i, j :| 0 <= i < j < |runs| && runs[i] == x && runs[j] == y;
    SortSorts(runs[1..], ranks);
    SortMembers(runs[1..], ranks);
    assert runs[1..][j - 1] == y;
    if i > 0 {
      assert runs[1..][i - 1] == x;
      SortIsStable(runs[1..], ranks, x, y);
      InsertKeepsOrder(runs[0], SortDescending(runs[1..], ranks), ranks, x, y);
    } else {
      InsertsBefore(runs[0], SortDescending(runs[1..], ranks), ranks, y);
    }
  }
}
