/** When is a page of the change log a function of the events alone? The runs are kept in a set,
    whose iteration order nothing fixes; this module says exactly when it shows in the answer. */
module ChangeLogPages {
  import opened Wrappers
  import opened ChangeLog

  // ----- descending orders of one set of runs ------------------------------------------------------------

  function SetOf(s: seq<string>): set<string> {
    set run | run in s
  }

  /** The runs strictly more recent than this one. */
  function Above(runs: set<string>, ranks: map<string, Rank>, x: string): set<string> {
    set y | y in runs && Less(RankOf(ranks, x), RankOf(ranks, y))
  }

  lemma {:induction false} DistinctSize(s: seq<string>)
    requires Distinct(s)
    ensures |SetOf(s)| == |s|
    decreases |s|
  {
    if s == [] {
      assert SetOf(s) == {};
    } else {
      var n := |s| - 1;
      DistinctSize(s[..n]);
      assert s == s[..n] + [s[n]];
      assert SetOf(s) == SetOf(s[..n]) + {s[n]};
      assert s[n] !in s[..n];
    }
  }

  lemma Subset(a: set<string>, b: set<string>)
    requires a <= b
    ensures |a| <= |b|
  {
    assert b == a + (b - a);
  }

  lemma AboveIsEarlier(s: seq<string>, ranks: map<string, Rank>, i: nat, j: nat)
    requires Descending(s, ranks) && i < |s| && j < |s| && Less(RankOf(ranks, s[i]), RankOf(ranks, s[j]))
    ensures j < i
  {
  }

  /** What is more recent stands before. */
  lemma AboveComesBefore(s: seq<string>, runs: set<string>, ranks: map<string, Rank>, i: nat)
    requires Enumerates(s, runs) && Descending(s, ranks) && i < |s|
    ensures Above(runs, ranks, s[i]) <= SetOf(s[..i])
    ensures |Above(runs, ranks, s[i])| <= i
  {
    forall y | y in Above(runs, ranks, s[i])
      ensures y in s[..i]
    {
      assert y in s;
      var j :| 0 <= j < |s| && s[j] == y;
      AboveIsEarlier(s, ranks, i, j);
      assert s[..i][j] == y;
    }
    DistinctSize(s[..i]);
    Subset(Above(runs, ranks, s[i]), SetOf(s[..i]));
  }

  lemma SameLength(s: seq<string>, t: seq<string>, runs: set<string>)
    requires Enumerates(s, runs) && Enumerates(t, runs)
    ensures |s| == |t|
  {
    DistinctSize(s);
    DistinctSize(t);
    assert SetOf(s) == runs && SetOf(t) == runs;
  }

  lemma NotAbove(s: seq<string>, t: seq<string>, runs: set<string>, ranks: map<string, Rank>, i: nat)
    requires Enumerates(s, runs) && Enumerates(t, runs) && Descending(s, ranks) && Descending(t, ranks)
    requires i < |s| && i < |t|
    ensures !Less(RankOf(ranks, s[i]), RankOf(ranks, t[i]))
  {
    AboveComesBefore(s, runs, ranks, i);
    DistinctSize(t[..i + 1]);
    if Less(RankOf(ranks, s[i]), RankOf(ranks, t[i])) {
      forall y | y in SetOf(t[..i + 1])
        ensures y in Above(runs, ranks, s[i])
      {
        var j :| 0 <= j < i + 1 && t[j] == y;
        assert y in t;
        assert j < i ==> !Less(RankOf(ranks, t[j]), RankOf(ranks, t[i]));
      }
      Subset(SetOf(t[..i + 1]), Above(runs, ranks, s[i]));
    }
  }

  /** Any two descending orders of one set have the same ranks place by place. */
  lemma SameRankAt(s: seq<string>, t: seq<string>, runs: set<string>, ranks: map<string, Rank>, i: nat)
    requires Enumerates(s, runs) && Enumerates(t, runs) && Descending(s, ranks) && Descending(t, ranks)
    requires i < |s| && i < |t|
    ensures RankOf(ranks, s[i]) == RankOf(ranks, t[i])
  {
    NotAbove(s, t, runs, ranks, i);
    NotAbove(t, s, runs, ranks, i);
  }

  /** A run that stands before all it ties with stands right after all that is more recent. */
  lemma FirstOfItsTie(s: seq<string>, runs: set<string>, ranks: map<string, Rank>, x: string)
    requires Enumerates(s, runs) && Descending(s, ranks) && x in runs
    requires forall z :: z in runs && z != x && RankOf(ranks, z) == RankOf(ranks, x) ==> Before(s, x, z)
    ensures |Above(runs, ranks, x)| < |s| && s[|Above(runs, ranks, x)|] == x
  {
    assert x in s;
    var p :| 0 <= p < |s| && s[p] == x;
    AboveComesBefore(s, runs, ranks, p);
    forall y | y in SetOf(s[..p])
      ensures y in Above(runs, ranks, x)
    {
      var j :| 0 <= j < p && s[j] == y;
      assert y in s;
      assert !Less(RankOf(ranks, s[j]), RankOf(ranks, s[p]));
      assert Before(s, y, x);
      NotBothWays(s, x, y);
    }
    assert SetOf(s[..p]) == Above(runs, ranks, x);
    DistinctSize(s[..p]);
  }

  lemma NotBothWays(s: seq<string>, x: string, y: string)
    requires Distinct(s)
    ensures !(Before(s, x, y) && Before(s, y, x))
  {
  }

  lemma {:induction false} SomeOrder(runs: set<string>) returns (order: seq<string>)
    ensures Enumerates(order, runs)
    decreases |runs|
  {
    if runs == {} {
      order := [];
    } else {
      var x :| x in runs;
      var rest := SomeOrder(runs - {x});
      order := [x] + rest;
    }
  }

  lemma OrderFrom(runs: set<string>, x: string) returns (order: seq<string>)
    requires x in runs
    ensures Enumerates(order, runs)
    ensures forall z :: z in runs && z != x ==> Before(order, x, z)
  {
    var rest := SomeOrder(runs - {x});
    order := [x] + rest;
    forall z | z in runs && z != x
      ensures Before(order, x, z)
    {
      assert z in rest;
      HeadBefore(x, rest, z);
    }
  }

  // ----- the wanted runs of a page ---------------------------------------------------------------------------

  ghost function WantedRuns(events: seq<Event>, resolve: string -> Resolution, q: Query): set<string> {
    set run | run in Candidates(events) && Chosen(OfRun(events, run), resolve, q).Some?
  }

  function EntryOf(events: seq<Event>, resolve: string -> Resolution, q: Query, run: string): Option<Entry> {
    Chosen(OfRun(events, run), resolve, q)
  }

  ghost function ShownOn(events: seq<Event>, order: seq<string>, resolve: string -> Resolution, q: Query): seq<string> {
    Shown(events, SortDescending(order, Ranks(events)), resolve, q)
  }

  lemma ShownFacts(events: seq<Event>, order: seq<string>, resolve: string -> Resolution, q: Query)
    requires Enumerates(order, Candidates(events))
    ensures var s, page := ShownOn(events, order, resolve, q), Visible(events, SortDescending(order, Ranks(events)), resolve, q);
            && Enumerates(s, WantedRuns(events, resolve, q)) && Descending(s, Ranks(events))
            && |s| == |page| && forall i :: 0 <= i < |s| ==> EntryOf(events, resolve, q, s[i]) == Some(page[i])
  {
    hide Candidates, OfRun, Chosen, SortDescending, Ranks;
    var ranks := Ranks(events);
    var sorted := SortDescending(order, ranks);
    SortMembers(order, ranks);
    SortDistinct(order, ranks);
    SortSorts(order, ranks);
    ShownRuns(events, sorted, resolve, q);
    ShownDescending(events, sorted, resolve, q, ranks);
  }

  lemma {:induction false} ShownKeepsOrder(events: seq<Event>, runs: seq<string>, resolve: string -> Resolution, q: Query, x: string, y: string)
    requires Distinct(runs) && Before(runs, x, y)
    requires EntryOf(events, resolve, q, x).Some? && EntryOf(events, resolve, q, y).Some?
    ensures Before(Shown(events, runs, resolve, q), x, y)
    decreases |runs|
  {
    hide Chosen, OfRun;
    var i, j :| 0 <= i < j < |runs| && runs[i] == x && runs[j] == y;
    var n := |runs| - 1;
    var earlier := Shown(events, runs[..n], resolve, q);
    if j < n {
      assert runs[..n][i] == x && runs[..n][j] == y;
      ShownKeepsOrder(events, runs[..n], resolve, q, x, y);
      var k, l :| 0 <= k < l < |earlier| && earlier[k] == x && earlier[l] == y;
      assert Shown(events, runs, resolve, q)[k] == x && Shown(events, runs, resolve, q)[l] == y;
    } else {
      ShownRuns(events, runs[..n], resolve, q);
      assert runs[..n][i] == x;
      assert x in earlier;
      var k :| 0 <= k < |earlier| && earlier[k] == x;
      var shown := earlier + [y];
      assert Shown(events, runs, resolve, q) == shown && shown[k] == x && shown[|earlier|] == y;
    }
  }

  // ----- when a page is determined -----------------------------------------------------------------------------

  ghost predicate Determined(events: seq<Event>, resolve: string -> Resolution, q: Query, limit: int) {
    forall order, other :: Enumerates(order, Candidates(events)) && Enumerates(other, Candidates(events)) ==>
      Page(events, order, resolve, q, limit) == Page(events, other, resolve, q, limit)
  }

  /** No two wanted runs that tie, with fewer than `limit` wanted runs above them, have
      different entries. */
  ghost predicate NoVisibleTie(events: seq<Event>, resolve: string -> Resolution, q: Query, limit: int) {
    var wanted, ranks := WantedRuns(events, resolve, q), Ranks(events);
    forall x, y :: x in wanted && y in wanted && RankOf(ranks, x) == RankOf(ranks, y) && |Above(wanted, ranks, x)| < limit ==>
      EntryOf(events, resolve, q, x) == EntryOf(events, resolve, q, y)
  }

  lemma NoTieSamePage(events: seq<Event>, order: seq<string>, other: seq<string>, resolve: string -> Resolution, q: Query, limit: int)
    requires NoVisibleTie(events, resolve, q, limit)
    requires Enumerates(order, Candidates(events)) && Enumerates(other, Candidates(events))
    ensures Page(events, order, resolve, q, limit) == Page(events, other, resolve, q, limit)
  {
    hide Candidates, SortDescending, Ranks, RankOf, Above, WantedRuns, EntryOf, ShownOn, Visible, Enumerates, Descending;
    var wanted, ranks := WantedRuns(events, resolve, q), Ranks(events);
    var s, t := ShownOn(events, order, resolve, q), ShownOn(events, other, resolve, q);
    ShownFacts(events, order, resolve, q);
    ShownFacts(events, other, resolve, q);
    SameLength(s, t, wanted);
    var first, second := Visible(events, SortDescending(order, ranks), resolve, q), Visible(events, SortDescending(other, ranks), resolve, q);
    forall i | 0 <= i < |first| && i < limit
      ensures first[i] == second[i]
    {
      SameRankAt(s, t, wanted, ranks, i);
      AboveComesBefore(s, wanted, ranks, i);
      Listed(s, wanted, i);
      Listed(t, wanted, i);
      assert EntryOf(events, resolve, q, s[i]) == EntryOf(events, resolve, q, t[i]);
    }
  }

  lemma Listed(s: seq<string>, runs: set<string>, i: nat)
    requires Enumerates(s, runs) && i < |s|
    ensures s[i] in runs
  {
    assert s[i] in s;
  }

  lemma TieComesLater(events: seq<Event>, order: seq<string>, resolve: string -> Resolution, q: Query, x: string, z: string)
    requires Enumerates(order, Candidates(events)) && Before(order, x, z)
    requires EntryOf(events, resolve, q, x).Some? && EntryOf(events, resolve, q, z).Some?
    requires RankOf(Ranks(events), x) == RankOf(Ranks(events), z)
    ensures Before(ShownOn(events, order, resolve, q), x, z)
  {
    hide Candidates, Ranks, RankOf, EntryOf, Before, SortDescending, Shown;
    SortIsStable(order, Ranks(events), x, z);
    SortDistinct(order, Ranks(events));
    ShownKeepsOrder(events, SortDescending(order, Ranks(events)), resolve, q, x, z);
  }

  /** An order that puts a wanted run first puts its entry right after the more recent ones. */
  lemma PutFirst(events: seq<Event>, resolve: string -> Resolution, q: Query, limit: int, x: string) returns (order: seq<string>)
    requires x in WantedRuns(events, resolve, q)
    requires |Above(WantedRuns(events, resolve, q), Ranks(events), x)| < limit
    ensures Enumerates(order, Candidates(events))
    ensures var place := |Above(WantedRuns(events, resolve, q), Ranks(events), x)|;
            var page := Page(events, order, resolve, q, limit);
            place < |page| && Some(page[place]) == EntryOf(events, resolve, q, x)
  {
    hide Candidates, SortDescending, Ranks, RankOf, Above, Visible, Before, Chosen, OfRun, ShownOn, Enumerates, Descending;
    var wanted, ranks := WantedRuns(events, resolve, q), Ranks(events);
    order := OrderFrom(Candidates(events), x);
    ShownFacts(events, order, resolve, q);
    var s := ShownOn(events, order, resolve, q);
    forall z | z in wanted && z != x && RankOf(ranks, z) == RankOf(ranks, x)
      ensures Before(s, x, z)
    {
      TieComesLater(events, order, resolve, q, x, z);
    }
    hide WantedRuns, EntryOf;
    FirstOfItsTie(s, wanted, ranks, x);
  }

  lemma TieShows(events: seq<Event>, resolve: string -> Resolution, q: Query, limit: int, x: string, y: string)
    returns (order: seq<string>, other: seq<string>)
    requires x in WantedRuns(events, resolve, q) && y in WantedRuns(events, resolve, q)
    requires RankOf(Ranks(events), x) == RankOf(Ranks(events), y)
    requires |Above(WantedRuns(events, resolve, q), Ranks(events), x)| < limit
    requires EntryOf(events, resolve, q, x) != EntryOf(events, resolve, q, y)
    ensures Enumerates(order, Candidates(events)) && Enumerates(other, Candidates(events))
    ensures Page(events, order, resolve, q, limit) != Page(events, other, resolve, q, limit)
  {
    hide Candidates, Page, Ranks, RankOf, WantedRuns, EntryOf, Enumerates;
    assert Above(WantedRuns(events, resolve, q), Ranks(events), x) == Above(WantedRuns(events, resolve, q), Ranks(events), y);
    order := PutFirst(events, resolve, q, limit, x);
    other := PutFirst(events, resolve, q, limit, y);
  }

  /** A page is the same however the set of runs iterates exactly when no two wanted runs that
      tie for a place on it have different entries. */
  lemma PageDeterminedIff(events: seq<Event>, resolve: string -> Resolution, q: Query, limit: int)
    ensures Determined(events, resolve, q, limit) <==> NoVisibleTie(events, resolve, q, limit)
  {
    hide Candidates, Page, Ranks, RankOf, WantedRuns, EntryOf, Above, Enumerates;
    if NoVisibleTie(events, resolve, q, limit) {
      forall order, other | Enumerates(order, Candidates(events)) && Enumerates(other, Candidates(events))
        ensures Page(events, order, resolve, q, limit) == Page(events, other, resolve, q, limit)
      {
        NoTieSamePage(events, order, other, resolve, q, limit);
      }
    } else {
      var wanted, ranks := WantedRuns(events, resolve, q), Ranks(events);
      var x, y :| x in wanted && y in wanted && RankOf(ranks, x) == RankOf(ranks, y) && |Above(wanted, ranks, x)| < limit
                  && EntryOf(events, resolve, q, x) != EntryOf(events, resolve, q, y);
      var order, other := TieShows(events, resolve, q, limit, x, y);
    }
  }

  // ----- unique event numbers ------------------------------------------------------------------------------------

  /** Event numbers are unique and every event is after the origin. */
  ghost predicate Numbered(events: seq<Event>) {
    && (forall i, j :: 0 <= i < j < |events| ==> events[i].eventId != events[j].eventId)
    && (forall e :: e in events ==> Less(ORIGIN, Rank(e.createdAt, e.eventId)))
  }

  lemma {:induction false} LatestIsAnEvent(events: seq<Event>, run: string)
    requires forall e :: e in events ==> Less(ORIGIN, Rank(e.createdAt, e.eventId))
    ensures Latest(OfRun(events, run)) == ORIGIN ==> OfRun(events, run) == []
    ensures Latest(OfRun(events, run)) != ORIGIN ==>
              exists e :: e in events && e.requestId == run && Latest(OfRun(events, run)) == Rank(e.createdAt, e.eventId)
    decreases |events|
  {
    if events != [] {
      var n := |events| - 1;
      assert events == events[..n] + [events[n]];
      LatestIsAnEvent(events[..n], run);
      OfRunStep(events[..n], events[n], run);
      assert events[n] in events;
      assert forall e :: e in events[..n] ==> e in events;
    }
  }

  lemma NumberedHasNoTies(events: seq<Event>, x: string, y: string)
    requires Numbered(events) && x in Candidates(events) && y in Candidates(events)
    requires RankOf(Ranks(events), x) == RankOf(Ranks(events), y)
    ensures x == y
  {
    hide OfRun, Latest, Candidates;
    CandidateIff(events, x);
    CandidateIff(events, y);
    LatestIsAnEvent(events, x);
    LatestIsAnEvent(events, y);
  }

  /** With unique event numbers after the origin there are no ties at all, so every page, for
      every query and limit, is a function of the events. */
  lemma PageIsDetermined(events: seq<Event>, resolve: string -> Resolution, q: Query, limit: int)
    requires Numbered(events)
    ensures Determined(events, resolve, q, limit)
  {
    hide Candidates, Ranks, RankOf, Above, EntryOf, Determined, Numbered;
    PageDeterminedIff(events, resolve, q, limit);
    forall x, y | x in WantedRuns(events, resolve, q) && y in WantedRuns(events, resolve, q)
                  && RankOf(Ranks(events), x) == RankOf(Ranks(events), y)
      ensures x == y
    {
      NumberedHasNoTies(events, x, y);
    }
  }

  // ----- an answer that depends on set iteration -------------------------------------------------------------------

  /** Two runs whose events were never numbered or stamped: neither has a rank of its own. */
  const TIED: seq<Event> :=
    [Event("a", 0, 0, "aggregate", None, "1", None), Event("b", 0, 0, "aggregate", None, "2", None)]

  const EVERYTHING := Query(None, None)

  function ById(id: string): Resolution {
    Found(Snapshot("playbook", "v1", id))
  }

  lemma TiedRuns()
    ensures OfRun(TIED, "a") == [TIED[0]] && OfRun(TIED, "b") == [TIED[1]]
    ensures Candidates(TIED) == {"a", "b"}
  {
    assert TIED[..1] == [TIED[0]] && TIED[..0] == [] && [TIED[0]][..0] == [];
    assert TIED[0] in TIED && TIED[1] in TIED;
  }

  lemma TiedEntry(own: Event)
    requires own == TIED[0] || own == TIED[1]
    ensures Latest([own]) == ORIGIN
    ensures Chosen([own], ById, EVERYTHING)
         == Some(Entry("playbook", "v1", Incremental, [Snapshot("playbook", "v1", own.entityId)], [], 0))
  {
    assert [own][..0] == [];
    assert Added([own]) == [own.entityId] && Removed([own]) == [];
    assert [own.entityId][..0] == [];
    assert Resolved([own.entityId], ById) == [Snapshot("playbook", "v1", own.entityId)];
  }

  /** Of two tied runs, a page of one holds the one that iterates first. */
  lemma FirstOfTwo(events: seq<Event>, x: string, y: string, resolve: string -> Resolution, q: Query)
    requires RankOf(Ranks(events), x) == RankOf(Ranks(events), y) && Chosen(OfRun(events, x), resolve, q).Some?
    ensures Page(events, [x, y], resolve, q, 1) == [Chosen(OfRun(events, x), resolve, q).value]
  {
    hide OfRun, Chosen, Ranks, RankOf;
    var ranks := Ranks(events);
    assert [x, y][1..] == [y] && [y][1..] == [];
    assert SortDescending([y], ranks) == [y];
    assert SortDescending([x, y], ranks) == [x, y];
    assert [x, y][..1] == [x] && [x][..0] == [];
    assert Visible(events, [x], resolve, q) == [Chosen(OfRun(events, x), resolve, q).value];
  }

  lemma TiedRanks()
    ensures RankOf(Ranks(TIED), "a") == ORIGIN && RankOf(Ranks(TIED), "b") == ORIGIN
  {
    TiedRuns();
    TiedEntry(TIED[0]);
    TiedEntry(TIED[1]);
    hide OfRun, Chosen, Candidates, Latest;
  }

  lemma TiedOrders()
    ensures Enumerates(["a", "b"], Candidates(TIED)) && Enumerates(["b", "a"], Candidates(TIED))
  {
    TiedRuns();
    hide Candidates;
  }

  lemma TiedEntries()
    ensures Chosen(OfRun(TIED, "a"), ById, EVERYTHING)
         == Some(Entry("playbook", "v1", Incremental, [Snapshot("playbook", "v1", "1")], [], 0))
    ensures Chosen(OfRun(TIED, "b"), ById, EVERYTHING)
         == Some(Entry("playbook", "v1", Incremental, [Snapshot("playbook", "v1", "2")], [], 0))
  {
    hide Chosen, OfRun, Candidates, Latest;
    TiedRuns();
    TiedEntry(TIED[0]);
    TiedEntry(TIED[1]);
  }

  /** Asked for one entry, the log answers with whichever run the set yields first. */
  lemma TiedPagesDiffer()
    ensures Enumerates(["a", "b"], Candidates(TIED)) && Enumerates(["b", "a"], Candidates(TIED))
    ensures Page(TIED, ["a", "b"], ById, EVERYTHING, 1)
         == [Entry("playbook", "v1", Incremental, [Snapshot("playbook", "v1", "1")], [], 0)]
    ensures Page(TIED, ["b", "a"], ById, EVERYTHING, 1)
         == [Entry("playbook", "v1", Incremental, [Snapshot("playbook", "v1", "2")], [], 0)]
  {
    hide OfRun, Chosen, Candidates, Page, Ranks, RankOf, Enumerates;
    TiedOrders();
    TiedEntries();
    TiedRanks();
    FirstOfTwo(TIED, "a", "b", ById, EVERYTHING);
    FirstOfTwo(TIED, "b", "a", ById, EVERYTHING);
  }
}
