/** What the flows write is what delivery metrics count (src/rail/deploy/flow.py, src/rail/metrics.py). */
module Counted {
  import opened Wrappers
  import opened FileStore
  import opened Incidents
  import opened DeployLog
  import opened DeployFlows
  import opened Flows
  import opened Metrics

  /** Neither a release on the target that names a digest nor a failure outside a drill. */
  predicate IsQuiet(r: Rec, target: Option<string>) {
    && !(r.data.Deployed? && r.data.mode == Release && r.data.artefact.digest != "" && r.key.EventKey?
         && target == Some(r.key.target))
    && !((r.data.IncidentDetected? || r.data.RolledBack?) && !r.data.drill)
  }

  lemma QuietStep(log: seq<Rec>, r: Rec, now: int, target: Option<string>)
    requires IsNext(log, r) && IsQuiet(r, target)
    ensures Deployments(log + [r], now, target) == Deployments(log, now, target)
    ensures Failures(log + [r], now) == Failures(log, now)
  {
    hide IsWellNamed;
    DrillStep(log, r, now, target);
  }

  lemma FailureStep(log: seq<Rec>, r: Rec, now: int, target: Option<string>)
    requires IsNext(log, r) && r.at <= now
    requires (r.data.IncidentDetected? || r.data.RolledBack?) && !r.data.drill
    ensures Deployments(log + [r], now, target) == Deployments(log, now, target)
    ensures Failures(log + [r], now) == Failures(log, now) + [r]
  {
    hide IsWellNamed;
    FailureIsLast(log, r, now);
    OnlyReleasesCount(log, r, now, target);
  }

  /** A release that names a digest joins the deployments on its target, last. */
  lemma ReleaseStep(log: seq<Rec>, r: Rec, now: int, target: string)
    requires IsNext(log, r) && r.at <= now
    requires r.data.Deployed? && r.data.mode == Release && r.data.artefact.digest != ""
    requires r.key.EventKey? && r.key.target == target
    ensures Deployments(log + [r], now, Some(target)) == Deployments(log, now, Some(target)) + [r]
    ensures Failures(log + [r], now) == Failures(log, now)
  {
    hide IsWellNamed, Failures, Metrics.History;
    OnlyRealFailuresCount(log, r, now);
    var isKind := (e: Evidence) => e.Deployed?;
    HistorySnoc(log, r, now, isKind);
    Sequences.FilterSnoc(x => IsRelease(x, Some(target)), Metrics.History(log, now, isKind), r);
  }

  lemma {:induction false} QuietTail(log: seq<Rec>, rs: seq<Rec>, now: int, target: Option<string>)
    requires Extends(log, rs) && forall r :: r in rs ==> IsQuiet(r, target)
    ensures Deployments(log + rs, now, target) == Deployments(log, now, target)
    ensures Failures(log + rs, now) == Failures(log, now)
    decreases |rs|
  {
    hide IsNext, IsQuiet, Extends, Deployments, Failures;
    if rs == [] {
      assert log + rs == log;
    } else {
      ExtendsTail(log, rs);
      QuietStep(log, rs[0], now, target);
      QuietTail(log + [rs[0]], rs[1..], now, target);
    }
  }

  /**
   * A rollback that went back, every record accepted, is one failure more, of the artefact that was
   * live before it, and no deployment.
   */
  lemma RollbackIsBlamed(a: Attester, now: int, target: Option<string>, deployed: seq<Rec>)
    requires a.Valid() && a.IsClean() && |a.attempted| == 3
    requires LiveArtefact(a.base).Some?
    requires a.attempted[0].RolledBack? && !a.attempted[0].drill
    requires a.attempted[0].fromDigest == LiveArtefact(a.base).value.digest
    requires a.attempted[1].Deployed? && a.attempted[1].mode == Rollback && a.attempted[2].Restored?
    requires a.records[0].at <= now
    ensures Failures(a.ledger.records, now) == Failures(a.base, now) + [a.records[0]]
    ensures Blamed(a.records[0], deployed) == LiveArtefact(a.base).value.digest
    ensures Deployments(a.ledger.records, now, target) == Deployments(a.base, now, target)
  {
    hide IsGoodLog, IsNext, LiveArtefact, Deployments, Failures;
    CleanFlow(a);
    LiveIsComplete(a.base);
    var rs := a.records;
    ExtendsTail(a.base, rs);
    FailureStep(a.base, rs[0], now, target);
    QuietTail(a.base + [rs[0]], rs[1..], now, target);
  }

  /**
   * A change that fails and comes back, every record accepted, is two failures more, both of the
   * change and none of the artefact that came back, and no deployment.
   */
  lemma CameBackIsBlamed(a: Attester, failed: Artefact, back: Artefact, now: int, target: Option<string>,
                         deployed: seq<Rec>)
    requires a.Valid() && a.IsClean() && SaidCameBack(a, failed, back) && failed.digest != ""
    requires a.records[1].at <= now
    ensures Failures(a.ledger.records, now) == Failures(a.base, now) + [a.records[0], a.records[1]]
    ensures Blamed(a.records[0], deployed) == failed.digest && Blamed(a.records[1], deployed) == failed.digest
    ensures Deployments(a.ledger.records, now, target) == Deployments(a.base, now, target)
  {
    hide IsGoodLog, IsWellNamed, LiveArtefact, Deployments, Failures;
    CleanFlow(a);
    var rs := a.records;
    FourRecords(a.base, rs);
    ExtendsTail(a.base, rs);
    ExtendsTail(a.base + [rs[0]], rs[1..]);
    FailureStep(a.base, rs[0], now, target);
    FailureStep(a.base + [rs[0]], rs[1], now, target);
    QuietTail(a.base + [rs[0]] + [rs[1]], rs[2..], now, target);
    assert rs[1..][1..] == rs[2..];
  }

  /** A change that goes live, every record accepted, is one deployment more and no failure. */
  lemma LiveIsCounted(a: Attester, live: Artefact, previous: Option<Artefact>, open: seq<Incident>, now: int)
    requires a.Valid() && a.IsClean() && SaidLive(a, live, previous, open) && live.digest != ""
    requires a.records[0].at <= now
    ensures Deployments(a.ledger.records, now, Some(a.target))
      == Deployments(a.base, now, Some(a.target)) + [a.records[0]]
    ensures ShippedDigest(a.records[0]) == live.digest
    ensures Failures(a.ledger.records, now) == Failures(a.base, now)
  {
    hide IsGoodLog, IsNext, Deployments, Failures;
    CleanFlow(a);
    var rs := a.records;
    ExtendsTail(a.base, rs);
    assert IsKeyed(rs[0], a.project, a.target);
    ReleaseStep(a.base, rs[0], now, a.target);
    forall r | r in rs[1..] ensures IsQuiet(r, Some(a.target)) {
      var k :| 0 <= k < |rs[1..]| && rs[1..][k] == r;
      assert a.attempted[1 + k] == Restored(false, None, Names(open[k].digest), Some(rs[0].at));
      assert rs[1 + k].data == a.attempted[1 + k];
    }
    QuietTail(a.base + [rs[0]], rs[1..], now, Some(a.target));
  }

  /** A drill that works, every record accepted, is one drill with its recovery, and nothing else. */
  lemma DrillIsCounted(a: Attester, live: Artefact, p: Artefact, now: int, target: Option<string>)
    requires a.Valid() && a.IsClean() && SaidDrill(a.attempted, Drilled, live, p) && a.records[3].at <= now
    ensures Deployments(a.ledger.records, now, target) == Deployments(a.base, now, target)
    ensures Failures(a.ledger.records, now) == Failures(a.base, now)
    ensures DrillIncidents(a.ledger.records, now) == DrillIncidents(a.base, now) + [a.records[0]]
    ensures DrillRestores(a.ledger.records, now) == DrillRestores(a.base, now) + [a.records[2]]
  {
    hide IsGoodLog, IsWellNamed, Deployments, Failures, DrillIncidents, DrillRestores;
    CleanFlow(a);
    var rs := a.records;
    FourRecords(a.base, rs);
    assert IsDrill(rs);
    DrillCountsAsDrill(a.base, rs, now, target);
  }
}
