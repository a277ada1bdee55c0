/** How long incidents lasted, and how many still do (src/rail/metrics.py, src/rail/incidents.py). */
module Recoveries {
  import opened Wrappers
  import opened Sequences
  import opened Incidents
  import opened DeployLog
  import opened Metrics

  // ---------------------------------------------------------------- the incidents of the history

  function IncidentOf(r: Rec): Incident {
    Incident(r.digest, r.at)
  }

  function RestoreOf(r: Rec): Restore {
    if r.data.Restored? then Restore(r.data.incident, r.at, r.digest, r.data.restoredAt)
    else Restore(Garbled, r.at, r.digest, None)
  }

  predicate IsRealRestore(e: Evidence) {
    e.Restored? && !e.drill
  }

  function RealIncidents(log: seq<Rec>, now: int): seq<Incident> {
    Map(IncidentOf, History(log, now, IsRealIncidentData))
  }

  function RealRestores(log: seq<Rec>, now: int): seq<Restore> {
    Map(RestoreOf, History(log, now, IsRealRestore))
  }

  /** A digest names one record. */
  ghost predicate HasNoTwins(s: seq<Rec>) {
    forall i, j :: 0 <= i < j < |s| ==> s[i].digest != s[j].digest
  }

  lemma SnocHasNoTwins(s: seq<Rec>, r: Rec)
    requires HasNoTwins(s) && forall x :: x in s ==> x.digest != r.digest
    ensures HasNoTwins(s + [r])
  {
  }

  lemma {:induction false} InsertHasNoTwins(s: seq<Rec>, r: Rec)
    requires HasNoTwins(s) && forall x :: x in s ==> x.digest != r.digest
    ensures HasNoTwins(InsertLast(s, r))
  {
    if s == [] || s[|s| - 1].at <= r.at {
      SnocHasNoTwins(s, r);
    } else {
      var init, last := s[..|s| - 1], s[|s| - 1];
      assert s == init + [last];
      InsertHasNoTwins(init, r);
      forall x | x in InsertLast(init, r) ensures x.digest != last.digest {
        if x in init {
          var k :| 0 <= k < |init| && init[k] == x;
          assert s[k] == x;
        }
      }
      SnocHasNoTwins(InsertLast(init, r), last);
    }
  }

  lemma InitHasNoTwins(s: seq<Rec>)
    requires HasNoTwins(s) && s != []
    ensures HasNoTwins(s[..|s| - 1]) && forall x :: x in s[..|s| - 1] ==> x.digest != s[|s| - 1].digest
  {
  }

  lemma {:induction false} SortedHasNoTwins(s: seq<Rec>)
    requires HasNoTwins(s)
    ensures HasNoTwins(ByInstant(s))
  {
    hide HasNoTwins, InsertLast;
    if s == [] {
      NothingHasTwins();
    } else {
      InitHasNoTwins(s);
      SortedHasNoTwins(s[..|s| - 1]);
      InsertHasNoTwins(ByInstant(s[..|s| - 1]), s[|s| - 1]);
    }
  }

  lemma NothingHasTwins()
    ensures HasNoTwins([])
  {
  }

  lemma {:induction false} FilterHasNoTwins(p: Rec -> bool, s: seq<Rec>)
    requires HasNoTwins(s)
    ensures HasNoTwins(Filter(p, s))
  {
    hide HasNoTwins;
    if s == [] {
      NothingHasTwins();
    } else {
      InitHasNoTwins(s);
      FilterHasNoTwins(p, s[..|s| - 1]);
      if p(s[|s| - 1]) {
        SnocHasNoTwins(Filter(p, s[..|s| - 1]), s[|s| - 1]);
      } else {
        assert Filter(p, s[..|s| - 1]) + [] == Filter(p, s[..|s| - 1]);
      }
    }
  }

  lemma HistoryHasNoTwins(log: seq<Rec>, now: int, isKind: Evidence -> bool)
    requires HasNoTwins(log)
    ensures HasNoTwins(History(log, now, isKind))
  {
    hide Filter, ByInstant, HasNoTwins;
    var p := (r: Rec) => r.at <= now && isKind(r.data);
    FilterHasNoTwins(p, log);
    SortedHasNoTwins(Filter(p, log));
  }

  lemma IncidentsAreDistinct(log: seq<Rec>, now: int)
    requires HasNoTwins(log)
    ensures DistinctDigests(RealIncidents(log, now))
  {
    hide History;
    HistoryHasNoTwins(log, now, IsRealIncidentData);
  }

  /** A record from after the publication changes no recovery. */
  lemma FutureRecoveries(log: seq<Rec>, r: Rec, now: int)
    requires r.at > now
    ensures RealIncidents(log + [r], now) == RealIncidents(log, now)
    ensures RealRestores(log + [r], now) == RealRestores(log, now)
  {
    hide History;
    FutureHistory(log, r, now, IsRealIncidentData);
    FutureHistory(log, r, now, IsRealRestore);
  }

  // ---------------------------------------------------------------- counting

  predicate IsRecent(i: Incident, since: int) {
    i.at >= since
  }

  /** The incidents of the window, among some. */
  function Recent(s: seq<Incident>, since: int): seq<Incident> {
    Filter(i => IsRecent(i, since), s)
  }

  /** How long each incident of the window that ended lasted. */
  function Durations(pairs: seq<(Incident, Restore)>, since: int): seq<int> {
    Map(DurationOf, Filter((p: (Incident, Restore)) => IsRecent(p.0, since), pairs))
  }

  /** One more pair: an incident of the window lasted until it was over, another is not counted. */
  lemma DurationsSnoc(pairs: seq<(Incident, Restore)>, i: Incident, r: Restore, since: int)
    ensures Durations(pairs + [(i, r)], since) ==
      if i.at >= since then Durations(pairs, since) + [RestoredTime(i, r) - i.at] else Durations(pairs, since)
  {
    FilterSnoc((p: (Incident, Restore)) => IsRecent(p.0, since), pairs, (i, r));
  }

  lemma RecentMeans(s: seq<Incident>, since: int, i: Incident)
    ensures i in Recent(s, since) <==> i in s && i.at >= since
  {
  }

  /** The incidents matched are those outside drills up to now, and the recoveries too. */
  lemma RealMean(log: seq<Rec>, now: int, i: Incident, x: Restore)
    ensures i in RealIncidents(log, now) <==>
      exists r :: r in log && r.at <= now && r.data.IncidentDetected? && !r.data.drill
                  && i.digest == r.digest && i.at == r.at
    ensures x in RealRestores(log, now) <==>
      exists r :: r in log && r.at <= now && r.data.Restored? && !r.data.drill
                  && x == Restore(r.data.incident, r.at, r.digest, r.data.restoredAt)
  {
    hide History;
    forall r ensures r in History(log, now, IsRealIncidentData) <==>
      r in log && r.at <= now && r.data.IncidentDetected? && !r.data.drill
    {
      HistoryMeans(log, now, IsRealIncidentData, r);
    }
    forall r ensures r in History(log, now, IsRealRestore) <==>
      r in log && r.at <= now && r.data.Restored? && !r.data.drill
    {
      HistoryMeans(log, now, IsRealRestore, r);
    }
    MapHolds(IncidentOf, History(log, now, IsRealIncidentData), i);
    MapHolds(RestoreOf, History(log, now, IsRealRestore), x);
  }

  lemma MapHolds<T(!new), U(!new)>(f: T -> U, s: seq<T>, u: U)
    ensures u in Map(f, s) <==> exists t :: t in s && u == f(t)
  {
    var m := Map(f, s);
    if u in m {
      var k :| 0 <= k < |m| && m[k] == u;
      assert s[k] in s;
    }
    if t :| t in s && u == f(t) {
      var k :| 0 <= k < |s| && s[k] == t;
      assert m[k] == u;
    }
  }

  function DurationOf(p: (Incident, Restore)): int {
    RestoredTime(p.0, p.1) - p.0.at
  }

  lemma {:induction false} PairsCount(incidents: seq<Incident>, restores: seq<Restore>, closed: map<int, nat>,
                                      since: int)
    requires forall d :: d in closed ==> closed[d] < |restores|
    ensures |Filter((p: (Incident, Restore)) => IsRecent(p.0, since), Pairs(incidents, restores, closed))| ==
      |Filter(i => IsRecent(i, since) && i.digest in closed, incidents)|
  {
    if incidents != [] {
      var n := |incidents| - 1;
      PairsCount(incidents[..n], restores, closed, since);
      if incidents[n].digest in closed {
        FilterSnoc((p: (Incident, Restore)) => IsRecent(p.0, since), Pairs(incidents[..n], restores, closed),
                   (incidents[n], restores[closed[incidents[n].digest]]));
      } else {
        assert Pairs(incidents[..n], restores, closed) + [] == Pairs(incidents[..n], restores, closed);
      }
    }
  }

  function Members(s: seq<Incident>): set<Incident> {
    set i | i in s
  }

  lemma {:induction false} DistinctCount(s: seq<Incident>)
    requires DistinctDigests(s)
    ensures |Members(s)| == |s|
  {
    if s != [] {
      var init, last := s[..|s| - 1], s[|s| - 1];
      assert s == init + [last];
      DistinctCount(init);
      assert last !in init;
      assert Members(s) == Members(init) + {last};
    }
  }

  lemma {:induction false} FilterIsDistinct(p: Incident -> bool, s: seq<Incident>)
    requires DistinctDigests(s)
    ensures DistinctDigests(Filter(p, s))
  {
    if s != [] {
      var init := s[..|s| - 1];
      FilterIsDistinct(p, init);
      forall k | 0 <= k < |Filter(p, init)| ensures Filter(p, init)[k].digest != s[|s| - 1].digest {
        assert Filter(p, init)[k] in init;
      }
    }
  }

  /** Among the incidents of the window, each is open or has ended, never both. */
  lemma OpenAndEnded(incidents: seq<Incident>, restores: seq<Restore>, since: int)
    requires DistinctDigests(incidents)
    ensures var m := After(incidents, restores);
      |Recent(m.open, since)| + |Filter(i => IsRecent(i, since) && i.digest in m.closed, incidents)|
        == |Recent(incidents, since)|
  {
    hide Filter, DistinctDigests, After;
    var m := After(incidents, restores);
    MatchingPartitions(incidents, restores);
    var ended := Filter(i => IsRecent(i, since) && i.digest in m.closed, incidents);
    FilterIsDistinct(i => IsRecent(i, since), m.open);
    FilterIsDistinct(i => IsRecent(i, since) && i.digest in m.closed, incidents);
    FilterIsDistinct(i => IsRecent(i, since), incidents);
    DistinctCount(Recent(m.open, since));
    DistinctCount(ended);
    DistinctCount(Recent(incidents, since));
    assert Members(Recent(incidents, since)) == Members(Recent(m.open, since)) + Members(ended);
    assert Members(Recent(m.open, since)) !! Members(ended);
  }

  /**
   * The recovery part of `delivery_window_v2`: the incidents of the whole history are matched
   * first, then the window is cut. Each real incident of the window has one duration or is
   * counted open.
   */
  method RecoveryTimes(log: seq<Rec>, now: int, since: int) returns (durations: seq<int>, open: nat)
    requires HasNoTwins(log)
    ensures var incidents, restores := RealIncidents(log, now), RealRestores(log, now);
      var m := After(incidents, restores);
      && (forall d :: d in m.closed ==> m.closed[d] < |restores|)
      && durations == Durations(Pairs(incidents, restores, m.closed), since)
      && open == |Recent(m.open, since)|
      && |durations| + open == |Recent(incidents, since)|
  {
    hide RealIncidents, RealRestores, After, Pairs, Filter, HasNoTwins, DistinctDigests;
    var incidents, restores := RealIncidents(log, now), RealRestores(log, now);
    IncidentsAreDistinct(log, now);
    var pairs, left := MatchRecoveries(incidents, restores);
    durations := Durations(pairs, since);
    open := |Recent(left, since)|;
    OpenAndEnded(incidents, restores, since);
    PairsCount(incidents, restores, After(incidents, restores).closed, since);
  }
}
