/** Which recovery closes which incident (src/rail/incidents.py). */
module Incidents {
  import opened Wrappers

  /** What a recovery says of the incident it ends: nothing, a record's digest, or no digest. */
  datatype Reference = Absent | Names(digest: int) | Garbled

  /** An incident record: its instant and its digest. */
  datatype Incident = Incident(digest: int, at: int)

  /** A recovery record. */
  datatype Restore = Restore(reference: Reference, at: int, digest: int, restoredAt: Option<int>)

  /** The incidents still open, oldest first, and for each closed digest its recovery's place. */
  datatype Matching = Matching(open: seq<Incident>, closed: map<int, nat>)

  ghost predicate DistinctDigests(s: seq<Incident>) {
    forall i, j :: 0 <= i < j < |s| ==> s[i].digest != s[j].digest
  }

  predicate Closes(r: Restore, i: Incident) {
    match r.reference
    case Absent => i.at < r.at
    case Names(d) => i.digest == d
    case Garbled => false
  }

  /** The first open incident a recovery closes: the one it names, or the oldest earlier one. */
  function Pick(open: seq<Incident>, r: Restore): (k: nat)
    ensures k <= |open|
    ensures k < |open| ==> Closes(r, open[k])
    ensures forall j :: 0 <= j < k ==> !Closes(r, open[j])
  {
    if open == [] then 0
    else if Closes(r, open[0]) then 0
    else 1 + Pick(open[1..], r)
  }

  lemma PickUnique(open: seq<Incident>, r: Restore, k: nat)
    requires k < |open| && Closes(r, open[k]) && forall j :: 0 <= j < k ==> !Closes(r, open[j])
    ensures Pick(open, r) == k
  {
  }

  function Without(open: seq<Incident>, k: nat): seq<Incident>
    requires k < |open|
  {
    open[..k] + open[k + 1..]
  }

  function Close(m: Matching, r: Restore, place: nat): Matching {
    var k := Pick(m.open, r);
    if k < |m.open| then Matching(Without(m.open, k), m.closed[m.open[k].digest := place]) else m
  }

  /** The matching after every recovery, in ledger order. */
  function After(incidents: seq<Incident>, restores: seq<Restore>): Matching {
    if restores == [] then Matching(incidents, map[])
    else
      var n := |restores| - 1;
      Close(After(incidents, restores[..n]), restores[n], n)
  }

  predicate IsClosed(m: Matching, i: Incident) {
    i.digest in m.closed
  }

  /** Every incident is open or closed, never both; a recovery closes at most one incident. */
  ghost predicate IsPartition(incidents: seq<Incident>, restores: seq<Restore>, m: Matching) {
    && (forall i :: i in m.open ==> i in incidents)
    && (forall i :: i in incidents ==> (i in m.open <==> !IsClosed(m, i)))
    && (forall d :: d in m.closed ==> m.closed[d] < |restores| && exists i :: i in incidents && i.digest == d)
    && (forall d, e :: d in m.closed && e in m.closed && m.closed[d] == m.closed[e] ==> d == e)
    && (forall i :: i in incidents && IsClosed(m, i) ==> Ends(restores[m.closed[i.digest]], i))
    && DistinctDigests(m.open)
  }

  lemma WithoutMeans(open: seq<Incident>, k: nat)
    requires k < |open| && DistinctDigests(open)
    ensures DistinctDigests(Without(open, k))
    ensures forall i :: i in Without(open, k) <==> i in open && i != open[k]
    ensures forall i :: i in open && i.digest == open[k].digest ==> i == open[k]
  {
  }

  lemma ClosePartitions(incidents: seq<Incident>, restores: seq<Restore>, m: Matching, r: Restore)
    requires DistinctDigests(incidents) && IsPartition(incidents, restores, m)
    ensures IsPartition(incidents, restores + [r], Close(m, r, |restores|))
  {
    var k := Pick(m.open, r);
    if k < |m.open| {
      WithoutMeans(m.open, k);
      var x := m.open[k];
      assert x in m.open;
      forall i | i in incidents && i.digest == x.digest ensures i == x {
        var a :| 0 <= a < |incidents| && incidents[a] == i;
        var b :| 0 <= b < |incidents| && incidents[b] == x;
      }
    }
  }

  /** Matching partitions the incidents, and each recovery is used at most once. */
  lemma {:induction false} MatchingPartitions(incidents: seq<Incident>, restores: seq<Restore>)
    requires DistinctDigests(incidents)
    ensures IsPartition(incidents, restores, After(incidents, restores))
  {
    if restores != [] {
      var n := |restores| - 1;
      MatchingPartitions(incidents, restores[..n]);
      ClosePartitions(incidents, restores[..n], After(incidents, restores[..n]), restores[n]);
      assert restores == restores[..n] + [restores[n]];
    }
  }

  /** The recovery ends the incident: it names it, or it names none and comes after it. */
  predicate Ends(r: Restore, i: Incident) {
    r.reference == Names(i.digest) || (r.reference == Absent && i.at < r.at)
  }

  /** What one more recovery does: it closes the first open incident it ends, and no other. */
  lemma LaterRestoreCloses(incidents: seq<Incident>, restores: seq<Restore>, r: Restore, k: nat)
    requires var open := After(incidents, restores).open;
      k <= |open| && (forall j :: 0 <= j < k ==> !Ends(r, open[j])) && (k < |open| ==> Ends(r, open[k]))
    ensures var m := After(incidents, restores);
      After(incidents, restores + [r]) ==
        if k == |m.open| then m
        else Matching(m.open[..k] + m.open[k + 1..], m.closed[m.open[k].digest := |restores|])
  {
    hide After;
    var m := After(incidents, restores);
    AfterSnoc(incidents, restores, r);
    if k < |m.open| {
      PickUnique(m.open, r, k);
    }
  }

  lemma AfterSnoc(incidents: seq<Incident>, restores: seq<Restore>, r: Restore)
    ensures After(incidents, restores + [r]) == Close(After(incidents, restores), r, |restores|)
  {
    assert (restores + [r])[..|restores|] == restores;
  }

  /** No recovery on record can close the incident: it is later, and its digest is not named. */
  ghost predicate IsUnanswered(restores: seq<Restore>, i: Incident) {
    forall r :: r in restores ==> !Closes(r, i)
  }

  lemma {:induction false} PickSnoc(open: seq<Incident>, i: Incident, r: Restore)
    requires !Closes(r, i)
    ensures Pick(open, r) < |open| ==> Pick(open + [i], r) == Pick(open, r)
    ensures Pick(open, r) == |open| ==> Pick(open + [i], r) == |open| + 1
  {
    if open != [] {
      assert (open + [i])[1..] == open[1..] + [i];
      PickSnoc(open[1..], i, r);
    }
  }

  /** Stability: a later incident joins the open ones, and changes nothing already matched. */
  lemma {:induction false} LaterIncidentStaysOpen(incidents: seq<Incident>, restores: seq<Restore>, i: Incident)
    requires IsUnanswered(restores, i)
    ensures var m := After(incidents, restores);
      After(incidents + [i], restores) == Matching(m.open + [i], m.closed)
  {
    hide Closes;
    if restores != [] {
      var n := |restores| - 1;
      var r := restores[n];
      assert r in restores;
      LaterIncidentStaysOpen(incidents, restores[..n], i);
      var m := After(incidents, restores[..n]);
      PickSnoc(m.open, i, r);
      var k := Pick(m.open, r);
      if k < |m.open| {
        assert Without(m.open + [i], k) == Without(m.open, k) + [i];
      }
    }
  }

  /** Stability: a later recovery keeps every pair, and closes at most one more incident. */
  lemma LaterRestoreKeepsPairs(incidents: seq<Incident>, restores: seq<Restore>, r: Restore)
    requires DistinctDigests(incidents)
    ensures var m, n := After(incidents, restores), After(incidents, restores + [r]);
      && (forall d :: d in m.closed ==> d in n.closed && n.closed[d] == m.closed[d])
      && |n.open| + 1 >= |m.open| >= |n.open|
      && (forall i :: i in n.open ==> i in m.open)
  {
    assert (restores + [r])[..|restores|] == restores;
    MatchingPartitions(incidents, restores);
    var m := After(incidents, restores);
    var k := Pick(m.open, r);
    if k < |m.open| {
      WithoutMeans(m.open, k);
      assert m.open[k] in m.open;
      assert !IsClosed(m, m.open[k]);
    }
  }

  // ---------------------------------------------------------------- the algorithm

  /** The closed incidents with their recoveries, in the order of the incidents. */
  function Pairs(incidents: seq<Incident>, restores: seq<Restore>, closed: map<int, nat>)
    : (r: seq<(Incident, Restore)>)
    requires forall d :: d in closed ==> closed[d] < |restores|
    ensures forall p :: p in r <==>
      p.0 in incidents && p.0.digest in closed && p.1 == restores[closed[p.0.digest]]
  {
    if incidents == [] then []
    else
      var n := |incidents| - 1;
      var i := incidents[n];
      assert incidents == incidents[..n] + [i];
      Pairs(incidents[..n], restores, closed) +
        (if i.digest in closed then [(i, restores[closed[i.digest]])] else [])
  }

  /** `match_recoveries`: the two dictionaries updated recovery by recovery. */
  method MatchRecoveries(incidents: seq<Incident>, restores: seq<Restore>)
    returns (pairs: seq<(Incident, Restore)>, open: seq<Incident>)
    requires DistinctDigests(incidents)
    ensures var m := After(incidents, restores);
      && open == m.open
      && (forall d :: d in m.closed ==> m.closed[d] < |restores|)
      && pairs == Pairs(incidents, restores, m.closed)
  {
    open := incidents;
    var closed: map<int, nat> := map[];
    for n := 0 to |restores|
      invariant Matching(open, closed) == After(incidents, restores[..n])
    {
      var restored := restores[n];
      assert restores[..n + 1][..n] == restores[..n];
      var k := 0;
      match restored.reference {
        case Names(d) =>
          while k < |open| && open[k].digest != d
            invariant k <= |open|
            invariant forall j :: 0 <= j < k ==> !Closes(restored, open[j])
          {
            k := k + 1;
          }
        case Garbled => k := |open|;
        case Absent =>
          while k < |open| && !(open[k].at < restored.at)
            invariant k <= |open|
            invariant forall j :: 0 <= j < k ==> !Closes(restored, open[j])
          {
            k := k + 1;
          }
      }
      assert k == Pick(open, restored);
      if k < |open| {
        closed := closed[open[k].digest := n];
        open := Without(open, k);
      }
    }
    assert restores[..|restores|] == restores;
    MatchingPartitions(incidents, restores);
    pairs := Pairs(incidents, restores, closed);
  }

  /** `restored_time`: the event time only within the incident's and the recovery's bounds. */
  function RestoredTime(i: Incident, r: Restore): (t: int)
    ensures i.at <= r.at ==> i.at <= t <= r.at
    ensures t == r.at || r.restoredAt == Some(t)
    ensures r.restoredAt.Some? && i.at <= r.restoredAt.value <= r.at ==> t == r.restoredAt.value
    ensures t != r.at ==> i.at <= t < r.at
  {
    if r.restoredAt.Some? && i.at <= r.restoredAt.value <= r.at then r.restoredAt.value else r.at
  }
}
