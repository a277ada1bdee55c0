/** The three flows over a target that can fail or be locked (src/rail/deploy/flow.py). */
module Flows {
  import opened Wrappers
  import opened FileStore
  import opened Incidents
  import opened DeployLog
  import opened DeployFlows

  /** How a flow ends. */
  datatype End =
    | NothingReleased | NotBuilt | LockHeld
    | WentLive | NoWayBack | CameBack | NotBack | LockedComingBack
    | NothingEarlier | WentBack | StayedInDoubt
    | SchemaRefused | Drilled | DrillFailed | StayedBack

  /** An attester made for one flow. */
  ghost predicate IsNew(a: Attester)
    reads a, a.ledger
  {
    a.Valid() && a.IsClean() && a.records == [] && a.attempted == [] && a.effects == [] && a.base == a.ledger.records
  }

  /** `target.apply`, remembered among the effects when it returns. */
  method ApplyTo(t: Target, a: Attester, artefact: Artefact, fate: ApplyFate) returns (r: Applied)
    requires a.Valid()
    modifies t, a`effects
    ensures a.Valid()
    ensures r == match fate case Works => Ok case Breaks(_) => Error case Held(_) => LockedOut
    ensures r.Ok? ==> t.running == Some(artefact.digest) && a.effects == old(a.effects) + [AppliedOk(artefact.digest)]
    ensures !r.Ok? ==> a.effects == old(a.effects)
  {
    r := t.Apply(artefact, fate);
    if r.Ok? {
      a.effects := a.effects + [AppliedOk(artefact.digest)];
    }
  }

  lemma OpenDigestIsKnown(a: Attester, k: nat)
    requires a.Valid() && k < |OpenIncidents(a.base)|
    ensures forall n: nat :: n >= a.calls ==> OpenIncidents(a.base)[k].digest != a.world.digests(n)
  {
    OpenAreIncidents(IncidentsOf(a.base), RestoresOf(a.base));
    var i := OpenIncidents(a.base)[k];
    assert i in IncidentsOf(a.base);
    var r :| r in a.base && r.digest == i.digest && r.at == i.at;
    assert r in a.ledger.records;
  }

  lemma RecordDigestIsKnown(a: Attester, k: nat)
    requires a.Valid() && k < |a.records|
    ensures forall n: nat :: n >= a.calls ==> a.records[k].digest != a.world.digests(n)
  {
  }

  /** `_open_incidents`. */
  method ReadOpenIncidents(log: seq<Rec>) returns (open: seq<Incident>)
    requires IsWellNamed(log)
    ensures open == OpenIncidents(log)
  {
    IncidentsAreDistinct(log);
    var pairs;
    pairs, open := MatchRecoveries(IncidentsOf(log), RestoresOf(log));
  }

  /** The recoveries a successful forward records, one for each incident open before it. */
  method CloseOpenIncidents(a: Attester, artefact: Artefact, previous: Option<Artefact>, open: seq<Incident>)
    requires a.Valid() && open == OpenIncidents(a.base)
    requires a.records != [] && a.attempted == LiveEvidence(artefact, previous, open, a.records[0].at, 0)
    modifies a`calls, a`records, a`unattested, a`failures, a`floor, a`effects, a`attempted, a.ledger
    ensures a.Valid() && a.records != []
    ensures a.attempted == LiveEvidence(artefact, previous, open, a.records[0].at, |open|)
    ensures a.IsClean() ==> old(a.IsClean())
  {
    hide IsGoodLog, AreKeyed, IsKeyed, Extends, RollbacksFollowApply, IsBelow, FileLedger.Valid, Attester.Accepts,
      OpenIncidents;
    ghost var clean := a.IsClean();
    var deployed := a.records[0];
    for i := 0 to |open|
      invariant a.Valid() && a.records != [] && a.records[0] == deployed
      invariant a.attempted == LiveEvidence(artefact, previous, open, deployed.at, i)
      invariant a.IsClean() ==> clean
    {
      OpenDigestIsKnown(a, i);
      a.Attest(Restored(false, None, Names(open[i].digest), Some(deployed.at)));
    }
  }

  /** The three records of a completed rollback: it is over, what is live, and the recovery. */
  method RecordReturn(a: Attester, automatic: bool, from: string, p: Artefact, version: string, incident: Reference)
    requires a.Valid() && p.digest != ""
    requires a.effects != [] && a.effects[|a.effects| - 1] == AppliedOk(p.digest)
    requires forall n: nat :: n >= a.calls ==> incident != Names(a.world.digests(n))
    modifies a`calls, a`records, a`unattested, a`failures, a`floor, a`effects, a`attempted, a.ledger
    ensures a.Valid()
    ensures a.attempted == old(a.attempted) + ReturnEvidence(automatic, from, p, version, incident)
    ensures a.IsClean() ==> old(a.IsClean())
    ensures old(a.records) <= a.records
  {
    hide IsGoodLog, AreKeyed, IsKeyed, Extends, RollbacksFollowApply, IsBelow, Hold, FileLedger.Valid, Attester.Accepts;
    a.Attest(RolledBack(false, automatic, from, p.digest, version));
    a.Attest(Deployed(Rollback, p, from));
    a.Attest(Restored(false, Some(p.digest), incident, None));
  }

  /** The failed change's incident, then the previous artefact put back, if there is one. */
  method ComeBack(t: Target, a: Attester, artefact: Artefact, previous: Option<Artefact>, second: ApplyFate)
    returns (end: End)
    requires IsNew(a)
    requires previous.Some? ==> previous.value.digest != ""
    modifies t, a`calls, a`records, a`unattested, a`failures, a`floor, a`effects, a`attempted, a.ledger
    ensures a.Valid()
    ensures end in {NoWayBack, NotBack, LockedComingBack, CameBack}
    ensures end == NoWayBack <==> previous.None?
    ensures end == CameBack <==> previous.Some? && second.Works?
    ensures end == LockedComingBack <==> previous.Some? && second.Held?
    ensures end != CameBack ==> a.attempted == [IncidentDetected(false, true, artefact.digest, artefact.version)]
    ensures end == CameBack ==> t.running == Some(previous.value.digest)
    ensures end == CameBack && a.IsClean() ==>
      a.records != [] && a.attempted == CameBackEvidence(artefact, previous.value, Names(a.records[0].digest))
    ensures end == CameBack ==> exists incident :: a.attempted == CameBackEvidence(artefact, previous.value, incident)
  {
    hide IsGoodLog, AreKeyed, IsKeyed, Extends, RollbacksFollowApply, IsBelow, FileLedger.Valid;
    a.Attest(IncidentDetected(false, true, artefact.digest, artefact.version));
    if previous.None? {
      return NoWayBack;
    }
    end := PutBack(t, a, artefact, previous.value, second);
  }

  /** The way back itself; nothing is claimed unless it works. */
  method PutBack(t: Target, a: Attester, artefact: Artefact, p: Artefact, second: ApplyFate) returns (end: End)
    requires a.Valid() && p.digest != ""
    requires a.attempted == [IncidentDetected(false, true, artefact.digest, artefact.version)]
    requires a.IsClean() ==> a.records != []
    modifies t, a`calls, a`records, a`unattested, a`failures, a`floor, a`effects, a`attempted, a.ledger
    ensures a.Valid() && (a.IsClean() ==> old(a.IsClean())) && old(a.records) <= a.records
    ensures end == match second case Works => CameBack case Breaks(_) => NotBack case Held(_) => LockedComingBack
    ensures end != CameBack ==> a.attempted == old(a.attempted)
    ensures end == CameBack ==>
      && t.running == Some(p.digest)
      && a.attempted == CameBackEvidence(artefact, p,
                          if old(a.records) != [] then Names(old(a.records[0]).digest) else Absent)
  {
    hide IsGoodLog, AreKeyed, IsKeyed, Extends, RollbacksFollowApply, IsBelow, Hold, FileLedger.Valid, Attester.Accepts;
    var incident := if a.records != [] then Names(a.records[0].digest) else Absent;
    var back := ApplyTo(t, a, p, second);
    if back.LockedOut? {
      return LockedComingBack;
    }
    if back.Error? {
      return NotBack;
    }
    if a.records != [] {
      RecordDigestIsKnown(a, 0);
    }
    RecordReturn(a, true, artefact.digest, p, artefact.version, incident);
    return CameBack;
  }

  // ---------------------------------------------------------------- what a clean flow leaves on the ledger

  /** A flow that lost no record left its evidence on the ledger, in order, after what was there. */
  lemma CleanFlow(a: Attester)
    requires a.Valid() && a.IsClean()
    ensures a.ledger.records == a.base + a.records && Extends(a.base, a.records) && Hold(a.records, a.attempted)
    ensures IsWellNamed(a.base) && IsComplete(a.base)
  {
    var log := a.ledger.records;
    assert forall i :: 0 <= i < |a.base| ==> log[i] == a.base[i];
  }

  lemma OneRecord(a: Attester)
    requires a.Valid() && a.IsClean() && |a.attempted| == 1
    ensures |a.records| == 1 && a.ledger.records == a.base + [a.records[0]]
    ensures IsNext(a.base, a.records[0]) && a.records[0].data == a.attempted[0]
  {
  }

  lemma ThreeRecords(log: seq<Rec>, rs: seq<Rec>)
    requires Extends(log, rs) && |rs| == 3
    ensures IsNext(log, rs[0]) && IsNext(log + [rs[0]], rs[1]) && IsNext(log + [rs[0]] + [rs[1]], rs[2])
    ensures log + rs == log + [rs[0]] + [rs[1]] + [rs[2]]
  {
    hide IsNext;
    assert log + rs[..0] == log;
    assert log + rs[..1] == log + [rs[0]];
    assert log + rs[..2] == log + [rs[0]] + [rs[1]];
  }

  lemma FourRecords(log: seq<Rec>, rs: seq<Rec>)
    requires Extends(log, rs) && |rs| == 4
    ensures IsNext(log, rs[0]) && IsNext(log + [rs[0]], rs[1]) && IsNext(log + [rs[0]] + [rs[1]], rs[2])
    ensures IsNext(log + [rs[0]] + [rs[1]] + [rs[2]], rs[3])
    ensures log + rs == log + [rs[0]] + [rs[1]] + [rs[2]] + [rs[3]]
  {
    hide IsNext;
    assert log + rs[..0] == log;
    assert log + rs[..1] == log + [rs[0]];
    assert log + rs[..2] == log + [rs[0]] + [rs[1]];
    assert log + rs[..3] == log + [rs[0]] + [rs[1]] + [rs[2]];
  }

  lemma HoldsFour(rs: seq<Rec>, es: seq<Evidence>)
    requires Hold(rs, es) && |es| == 4
    ensures [rs[0].data, rs[1].data, rs[2].data, rs[3].data] == es
  {
  }

  lemma HoldsThree(rs: seq<Rec>, es: seq<Evidence>)
    requires Hold(rs, es) && |es| == 3
    ensures [rs[0].data, rs[1].data, rs[2].data] == es
  {
  }

  /** What the flow knows of the ledger it started from, and of the one it leaves. */
  ghost predicate LeavesOpen(a: Attester, open: seq<Incident>, live: Option<Artefact>)
    reads a, a.ledger
  {
    OpenIncidents(a.ledger.records) == open && LiveArtefact(a.ledger.records) == live
  }

  lemma LiveOnLedger(a: Attester, artefact: Artefact, previous: Option<Artefact>, at: int)
    requires a.Valid() && a.IsClean()
    requires a.attempted == LiveEvidence(artefact, previous, OpenIncidents(a.base), at, |OpenIncidents(a.base)|)
    ensures LeavesOpen(a, [], Some(artefact))
  {
    CleanFlow(a);
    LiveMeans(a.base, a.records, artefact, previous, at);
  }

  lemma CameBackOnLedger(a: Attester, artefact: Artefact, p: Artefact)
    requires a.Valid() && a.IsClean() && a.records != []
    requires a.attempted == CameBackEvidence(artefact, p, Names(a.records[0].digest))
    ensures LeavesOpen(a, OpenIncidents(a.base), Some(p))
  {
    hide IsGoodLog, AreKeyed, IsKeyed, IsNext, Extends, Hold, OpenIncidents, LiveArtefact, CameBackEvidence;
    CleanFlow(a);
    CameBackIsFour(artefact, p, Names(a.records[0].digest));
    ExtendFour(a.base, a.records, a.attempted);
    CameBackMeans(a.base, a.records[0], a.records[1], a.records[2], a.records[3], artefact, p);
  }

  lemma CameBackIsFour(artefact: Artefact, p: Artefact, incident: Reference)
    ensures |CameBackEvidence(artefact, p, incident)| == 4
  {
  }

  lemma ExtendFour(log: seq<Rec>, rs: seq<Rec>, es: seq<Evidence>)
    requires Extends(log, rs) && Hold(rs, es) && |es| == 4
    ensures |rs| == 4 && [rs[0].data, rs[1].data, rs[2].data, rs[3].data] == es
    ensures IsNext(log, rs[0]) && IsNext(log + [rs[0]], rs[1]) && IsNext(log + [rs[0]] + [rs[1]], rs[2])
    ensures IsNext(log + [rs[0]] + [rs[1]] + [rs[2]], rs[3])
    ensures log + rs == log + [rs[0]] + [rs[1]] + [rs[2]] + [rs[3]]
  {
    hide IsNext;
    FourRecords(log, rs);
    HoldsFour(rs, es);
  }

  lemma IncidentOnLedger(a: Attester, e: Evidence)
    requires a.Valid() && a.IsClean() && a.attempted == [e] && IsRealIncident(e)
    ensures |a.records| == 1 && a.records[0].data == e
    ensures LeavesOpen(a, OpenIncidents(a.base) + [IncidentOf(a.records[0])], LiveArtefact(a.base))
  {
    OneRecord(a);
    IncidentMeans(a.base, a.records[0]);
  }

  function IncidentOf(r: Rec): Incident {
    Incident(r.digest, r.at)
  }

  // ---------------------------------------------------------------- forward

  lemma {:induction false} ReleasesAreComplete(log: seq<Rec>, version: Option<string>)
    requires IsComplete(log) && NewestRelease(log, version).Some?
    ensures NewestRelease(log, version).value.digest != ""
  {
    var last := log[|log| - 1];
    assert last in log;
    if !(last.data.Released? && (version.None? || last.data.artefact.version == version.value)) {
      ReleasesAreComplete(log[..|log| - 1], version);
    }
  }

  /** What the flow leaves when it wrote nothing. */
  ghost predicate WroteNothing(a: Attester)
    reads a, a.ledger
  {
    a.attempted == [] && a.effects == [] && a.ledger.records == a.base
  }

  /** What a forward that works says: the deployment after the previous artefact, and, when that is
      recorded, for each incident open before, in order, that it ended at the deployment. */
  ghost predicate SaidLive(a: Attester, live: Artefact, previous: Option<Artefact>, open: seq<Incident>)
    reads a
  {
    && a.attempted != []
    && a.attempted[0] == Deployed(Release, live, if previous.None? then "" else previous.value.digest)
    && (a.IsClean() ==>
          && a.records != [] && |a.attempted| == 1 + |open|
          && forall i :: 0 <= i < |open| ==>
               a.attempted[1 + i] == Restored(false, None, Names(open[i].digest), Some(a.records[0].at)))
  }

  /** What a forward that fails and comes back says: its incident, what it rolled back from and to,
      what is live in its stead, and the recovery, which names the incident when that is recorded. */
  ghost predicate SaidCameBack(a: Attester, failed: Artefact, back: Artefact)
    reads a
  {
    && |a.attempted| == 4
    && a.attempted[0] == IncidentDetected(false, true, failed.digest, failed.version)
    && a.attempted[1] == RolledBack(false, true, failed.digest, back.digest, failed.version)
    && a.attempted[2] == Deployed(Rollback, back, failed.digest)
    && a.attempted[3].Restored? && !a.attempted[3].drill && a.attempted[3].back == Some(back.digest)
    && a.attempted[3].restoredAt == None
    && (a.IsClean() ==> a.records != [] && a.attempted[3].incident == Names(a.records[0].digest))
  }

  lemma CameBackIsSaid(a: Attester, failed: Artefact, back: Artefact)
    requires exists incident :: a.attempted == CameBackEvidence(failed, back, incident)
    requires a.IsClean() ==>
      a.records != [] && a.attempted == CameBackEvidence(failed, back, Names(a.records[0].digest))
    ensures SaidCameBack(a, failed, back)
  {
  }

  /**
   * `forward`. With every record accepted: a change that goes live is what the newest
   * `deployed` names and what the target runs, and no incident is open; a change that fails and
   * comes back leaves the earlier open incidents as they were; one that does not come back adds
   * its own incident, and claims nothing else.
   */
  method Forward(t: Target, a: Attester, version: Option<string>, builds: bool, first: ApplyFate, second: ApplyFate)
    returns (end: End)
    requires IsNew(a)
    modifies t, a`calls, a`records, a`unattested, a`failures, a`floor, a`effects, a`attempted, a.ledger
    ensures a.Valid()
    ensures end in {NothingReleased, NotBuilt, LockHeld, WentLive, NoWayBack, NotBack, LockedComingBack, CameBack}
    ensures end == NothingReleased <==> NewestRelease(a.base, version).None?
    ensures end == NotBuilt <==> end != NothingReleased && !builds
    ensures NewestRelease(a.base, version).Some? && builds ==>
      (end == WentLive <==> first.Works?) && (end == LockHeld <==> first.Held?)
    ensures NewestRelease(a.base, version).Some? && builds && first.Breaks? ==>
      var back := PreviousArtefact(a.base, NewestRelease(a.base, version).value.digest);
      && (end == NoWayBack <==> back.None?)
      && (end == CameBack <==> back.Some? && second.Works?)
      && (end == LockedComingBack <==> back.Some? && second.Held?)
      && (end == NotBack <==> back.Some? && second.Breaks?)
    ensures end in {NothingReleased, NotBuilt} ==> WroteNothing(a) && t.running == old(t.running)
    ensures end == LockHeld ==> WroteNothing(a) && first.Held?
    ensures end in {NoWayBack, NotBack, LockedComingBack, CameBack} ==> first.Breaks?
    ensures end == WentLive ==> first.Works? && t.running == Some(NewestRelease(a.base, version).value.digest)
    ensures end == WentLive && a.IsClean() ==> LeavesOpen(a, [], NewestRelease(a.base, version))
    ensures end == CameBack ==>
      var back := PreviousArtefact(a.base, NewestRelease(a.base, version).value.digest);
      && back.Some? && second.Works? && t.running == Some(back.value.digest)
      && (a.IsClean() ==> LeavesOpen(a, OpenIncidents(a.base), back))
    ensures end in {NoWayBack, NotBack, LockedComingBack} && a.IsClean() ==>
      && |a.records| == 1
      && LeavesOpen(a, OpenIncidents(a.base) + [IncidentOf(a.records[0])], LiveArtefact(a.base))
    ensures end == WentLive ==>
      var live := NewestRelease(a.base, version).value;
      SaidLive(a, live, PreviousArtefact(a.base, live.digest), OpenIncidents(a.base))
    ensures end == CameBack ==>
      var failed := NewestRelease(a.base, version).value;
      SaidCameBack(a, failed, PreviousArtefact(a.base, failed.digest).value)
    ensures end in {NoWayBack, NotBack, LockedComingBack} ==>
      var failed := NewestRelease(a.base, version).value;
      a.attempted == [IncidentDetected(false, true, failed.digest, failed.version)]
  {
    hide IsGoodLog, AreKeyed, IsKeyed, Extends, RollbacksFollowApply, IsBelow, Hold, FileLedger.Valid, OpenIncidents,
      LiveArtefact, PreviousArtefact, NewestRelease, LiveEvidence, CameBackEvidence, SaidLive, SaidCameBack;
    var released := NewestRelease(a.ledger.records, version);
    if released.None? {
      return NothingReleased;
    }
    var artefact := released.value;
    var previous := PreviousArtefact(a.ledger.records, artefact.digest);
    if !builds {
      return NotBuilt;
    }
    CleanFlow(a);
    ReleasesAreComplete(a.base, version);
    var open := ReadOpenIncidents(a.ledger.records);
    var live := ApplyTo(t, a, artefact, first);
    if live.LockedOut? {
      return LockHeld;
    }
    if live.Error? {
      end := ComeBack(t, a, artefact, previous, second);
      if end == CameBack {
        CameBackIsSaid(a, artefact, previous.value);
      }
      if a.IsClean() {
        if end == CameBack {
          CameBackOnLedger(a, artefact, previous.value);
        } else {
          IncidentOnLedger(a, IncidentDetected(false, true, artefact.digest, artefact.version));
        }
      }
      return;
    }
    GoLive(a, artefact, previous, open);
    return WentLive;
  }

  /** The evidence of a change that works: a lost `deployed` stops there. */
  method GoLive(a: Attester, artefact: Artefact, previous: Option<Artefact>, open: seq<Incident>)
    requires a.Valid() && a.IsClean() && a.records == [] && a.attempted == [] && a.base == a.ledger.records
    requires open == OpenIncidents(a.base) && artefact.digest != ""
    modifies a`calls, a`records, a`unattested, a`failures, a`floor, a`effects, a`attempted, a.ledger
    ensures a.Valid()
    ensures a.IsClean() ==> LeavesOpen(a, [], Some(artefact))
    ensures SaidLive(a, artefact, previous, open)
  {
    hide IsGoodLog, AreKeyed, IsKeyed, Extends, RollbacksFollowApply, IsBelow, Hold, FileLedger.Valid, OpenIncidents,
      LiveArtefact;
    a.Attest(Deployed(Release, artefact, DigestOf(previous)));
    if a.records != [] {
      CloseOpenIncidents(a, artefact, previous, open);
      if a.IsClean() {
        LiveOnLedger(a, artefact, previous, a.records[0].at);
      }
    }
  }

  // ---------------------------------------------------------------- rollback

  lemma {:induction false} LiveIsComplete(log: seq<Rec>)
    requires IsComplete(log) && LiveArtefact(log).Some?
    ensures LiveArtefact(log).value.digest != ""
  {
    var last := log[|log| - 1];
    assert last in log;
    if !last.data.Deployed? {
      LiveIsComplete(log[..|log| - 1]);
    }
  }

  lemma RollbackOnLedger(a: Attester, live: Artefact, p: Artefact)
    requires a.Valid() && a.IsClean()
    requires LiveArtefact(a.base) == Some(live) && live.digest != "" && p.digest != live.digest
    requires var open := OpenIncidents(a.base);
      a.attempted == RollbackEvidence(live, p, if open == [] then Absent else Names(open[0].digest))
    ensures var open := OpenIncidents(a.base);
      LeavesOpen(a, if open == [] then [] else open[1..], Some(p))
    ensures RollbackTarget(a.ledger.records) == Some(live)
  {
    hide IsGoodLog, AreKeyed, IsKeyed, IsNext, Extends, Hold, OpenIncidents, LiveArtefact;
    CleanFlow(a);
    ThreeRecords(a.base, a.records);
    HoldsThree(a.records, a.attempted);
    RollbackMeans(a.base, a.records[0], a.records[1], a.records[2], live, p);
  }

  /**
   * `rollback`. With every record accepted: the previous artefact is what the newest `deployed`
   * names and what the target runs, what was live is what another rollback would go back to,
   * and exactly the oldest open incident is over. A rollback that fails is itself an incident.
   */
  method RollBack(t: Target, a: Attester, builds: bool, fate: ApplyFate) returns (end: End)
    requires IsNew(a)
    modifies t, a`calls, a`records, a`unattested, a`failures, a`floor, a`effects, a`attempted, a.ledger
    ensures a.Valid()
    ensures end in {NothingEarlier, NotBuilt, LockHeld, StayedInDoubt, WentBack}
    ensures end == NothingEarlier <==> RollbackTarget(a.base).None?
    ensures end == NotBuilt <==> end != NothingEarlier && !builds
    ensures end in {NothingEarlier, NotBuilt, LockHeld} ==> WroteNothing(a)
    ensures end in {NothingEarlier, NotBuilt} ==> t.running == old(t.running)
    ensures (end == LockHeld ==> fate.Held?) && (end == StayedInDoubt ==> fate.Breaks?)
    ensures end == WentBack ==> LiveArtefact(a.base).Some?
    ensures end == WentBack ==> fate.Works? && t.running == Some(RollbackTarget(a.base).value.digest)
    ensures end == WentBack && a.IsClean() ==>
      var open := OpenIncidents(a.base);
      && LeavesOpen(a, if open == [] then [] else open[1..], RollbackTarget(a.base))
      && RollbackTarget(a.ledger.records) == LiveArtefact(a.base)
    ensures end == StayedInDoubt && a.IsClean() ==>
      && fate.Breaks? && |a.records| == 1
      && LeavesOpen(a, OpenIncidents(a.base) + [IncidentOf(a.records[0])], LiveArtefact(a.base))
    ensures end == WentBack ==>
      var live, p, open := LiveArtefact(a.base).value, RollbackTarget(a.base).value, OpenIncidents(a.base);
      a.attempted ==
        [RolledBack(false, false, live.digest, p.digest, p.version),
         Deployed(Rollback, p, live.digest),
         Restored(false, Some(p.digest), if open == [] then Absent else Names(open[0].digest), None)]
    ensures end == StayedInDoubt ==>
      && LiveArtefact(a.base).Some?
      && var live := LiveArtefact(a.base).value;
         a.attempted == [IncidentDetected(false, false, live.digest, live.version)]
  {
    hide IsGoodLog, AreKeyed, IsKeyed, Extends, RollbacksFollowApply, IsBelow, Hold, FileLedger.Valid, OpenIncidents,
      LiveArtefact, PreviousArtefact;
    var running := LiveArtefact(a.ledger.records);
    var previous := if running.None? then None else PreviousArtefact(a.ledger.records, running.value.digest);
    if running.None? || previous.None? {
      return NothingEarlier;
    }
    var live, p := running.value, previous.value;
    if !builds {
      return NotBuilt;
    }
    CleanFlow(a);
    LiveIsComplete(a.base);
    var open := ReadOpenIncidents(a.ledger.records);
    var back := ApplyTo(t, a, p, fate);
    if back.LockedOut? {
      return LockHeld;
    }
    if back.Error? {
      a.Attest(IncidentDetected(false, false, live.digest, live.version));
      if a.IsClean() {
        IncidentOnLedger(a, IncidentDetected(false, false, live.digest, live.version));
      }
      return StayedInDoubt;
    }
    if open != [] {
      OpenDigestIsKnown(a, 0);
    }
    RecordReturn(a, false, live.digest, p, p.version, if open == [] then Absent else Names(open[0].digest));
    if a.IsClean() {
      RollbackOnLedger(a, live, p);
    }
    return WentBack;
  }

  /** A second rollback undoes the first: the same artefact is live, with the same one to go back to. */
  lemma TwoRollbacksRestore(log: seq<Rec>, rs: seq<Rec>, more: seq<Rec>, i: Reference, j: Reference)
    requires IsWellNamed(log) && IsComplete(log) && RollbackTarget(log).Some?
    requires |rs| == 3 && |more| == 3 && Extends(log, rs) && Extends(log + rs, more)
    requires Hold(rs, RollbackEvidence(LiveArtefact(log).value, RollbackTarget(log).value, i))
    requires var mid := log + rs;
      && RollbackTarget(mid).Some?
      && Hold(more, RollbackEvidence(LiveArtefact(mid).value, RollbackTarget(mid).value, j))
    ensures LiveArtefact(log + rs + more) == LiveArtefact(log)
    ensures RollbackTarget(log + rs + more) == RollbackTarget(log)
  {
    hide IsNext, IsWellNamed, IsComplete, Hold;
    LiveIsComplete(log);
    var live, p := LiveArtefact(log).value, RollbackTarget(log).value;
    ThreeRecords(log, rs);
    HoldsThree(rs, RollbackEvidence(live, p, i));
    SwapArtefacts(log, rs[0], rs[1], rs[2], live, p);
    assert LiveArtefact(log + rs) == Some(p) && RollbackTarget(log + rs) == Some(live);
    ThreeRecords(log + rs, more);
    HoldsThree(more, RollbackEvidence(p, live, j));
    SwapArtefacts(log + rs, more[0], more[1], more[2], p, live);
  }

  /** The same world from its `n`-th call on. */
  function Later(w: World, n: nat): World {
    World((k: nat) => w.clock(2 * n + k), (k: nat) => w.fates(n + k), (k: nat) => w.digests(n + k))
  }

  lemma LaterIsGood(log: seq<Rec>, project: string, w: World, n: nat)
    requires IsGoodLog(log, project, w.digests, n)
    ensures IsGoodLog(log, project, Later(w, n).digests, 0)
  {
    hide IsWellNamed, KeysMatchStamps, IsComplete;
    var later := Later(w, n).digests;
    assert forall k: nat :: later(k) == w.digests(n + k);
  }

  /** The ledger and the target are as before the two rollbacks, but for the incidents they ended. */
  ghost predicate IsRestored(before: seq<Rec>, after: seq<Rec>, running: Option<string>) {
    && LiveArtefact(before).Some? && LiveArtefact(after) == LiveArtefact(before)
    && RollbackTarget(after) == RollbackTarget(before)
    && running == Some(LiveArtefact(before).value.digest)
    && OpenIncidents(after) == var open := OpenIncidents(before); if |open| <= 2 then [] else open[2..]
  }

  lemma RestoredByTwo(before: seq<Rec>, mid: seq<Rec>, after: seq<Rec>, running: Option<string>)
    requires RollbackTarget(before).Some? && RollbackTarget(mid).Some?
    requires LiveArtefact(mid) == RollbackTarget(before) && RollbackTarget(mid) == LiveArtefact(before)
    requires LiveArtefact(after) == RollbackTarget(mid) && RollbackTarget(after) == LiveArtefact(mid)
    requires OpenIncidents(mid) == var open := OpenIncidents(before); if open == [] then [] else open[1..]
    requires OpenIncidents(after) == var open := OpenIncidents(mid); if open == [] then [] else open[1..]
    requires running == Some(RollbackTarget(mid).value.digest)
    ensures IsRestored(before, after, running)
  {
    hide LiveArtefact, RollbackTarget, OpenIncidents;
  }

  /**
   * Two rollbacks on one ledger. When both went back and every record was accepted, the target runs
   * what it ran before them and the ledger names it, with the same artefact to go back to.
   */
  method RollBackTwice(t: Target, a: Attester, first: ApplyFate, second: ApplyFate)
    returns (one: End, two: End, b: Attester)
    requires IsNew(a)
    modifies t, a`calls, a`records, a`unattested, a`failures, a`floor, a`effects, a`attempted, a.ledger
    ensures b.Valid() && b.ledger == a.ledger && fresh(b)
    ensures one == WentBack && two == WentBack && a.IsClean() && b.IsClean() ==>
      IsRestored(a.base, a.ledger.records, t.running)
    ensures RollbackTarget(a.base).Some? && first.Works? ==> one == WentBack
    ensures one == WentBack && a.IsClean() && second.Works? ==> two == WentBack
  {
    hide IsGoodLog, AreKeyed, IsKeyed, OpenIncidents, LiveArtefact, RollbackTarget, Extends, Hold,
      RollbacksFollowApply, IsBelow, FileLedger.Valid, IsRestored;
    ghost var before := a.base;
    one := RollBack(t, a, true, first);
    ghost var mid, isClean := a.ledger.records, a.IsClean();
    LaterIsGood(mid, a.project, a.world, a.calls);
    b := new Attester(a.ledger, a.project, a.target, a.issuer, Later(a.world, a.calls));
    two := RollBack(t, b, true, second);
    if one == WentBack && two == WentBack && isClean && b.IsClean() {
      RestoredByTwo(before, mid, b.ledger.records, t.running);
    }
  }

  // ---------------------------------------------------------------- drill

  lemma DrillOnLedger(a: Attester, live: Artefact, p: Artefact)
    requires a.Valid() && a.IsClean() && LiveArtefact(a.base) == Some(live)
    requires a.attempted == DrillEvidence(live, p)
    ensures LeavesOpen(a, OpenIncidents(a.base), Some(live))
    ensures RollbackTarget(a.ledger.records) == RollbackTarget(a.base)
  {
    hide IsGoodLog, AreKeyed, IsKeyed, IsNext, Extends, Hold, OpenIncidents, LiveArtefact, PreviousArtefact,
      RollbackTarget;
    CleanFlow(a);
    ExtendFour(a.base, a.records, a.attempted);
    DrillMeans(a.base, a.records[0], a.records[1], a.records[2], a.records[3], live, p);
  }

  /** The roll-forward failed: the ledger names the artefact that stayed. */
  lemma StayedOnLedger(a: Attester, live: Artefact, p: Artefact)
    requires a.Valid() && a.IsClean()
    requires a.attempted == StayedEvidence(live, p)
    ensures LeavesOpen(a, OpenIncidents(a.base), Some(p))
  {
    hide IsGoodLog, AreKeyed, IsKeyed, IsNext, Extends, Hold, OpenIncidents, LiveArtefact, PreviousArtefact;
    CleanFlow(a);
    ExtendFour(a.base, a.records, a.attempted);
    StayedMeans(a.base, a.records[0], a.records[1], a.records[2], a.records[3], live, p);
  }

  function StayedEvidence(live: Artefact, p: Artefact): seq<Evidence> {
    DrillEvidence(live, p)[..3] + [Deployed(Rollback, p, live.digest)]
  }

  lemma StayedMeans(log: seq<Rec>, r0: Rec, r1: Rec, r2: Rec, r3: Rec, live: Artefact, p: Artefact)
    requires [r0.data, r1.data, r2.data, r3.data] == StayedEvidence(live, p)
    ensures OpenIncidents(log + [r0] + [r1] + [r2] + [r3]) == OpenIncidents(log)
    ensures LiveArtefact(log + [r0] + [r1] + [r2] + [r3]) == Some(p)
  {
    hide OpenIncidents;
    var es := StayedEvidence(live, p);
    assert r0.data == es[0] && r1.data == es[1] && r2.data == es[2] && r3.data == es[3];
    QuietPair(log, r0, r1);
    QuietPair(log + [r0] + [r1], r2, r3);
    SnocFunctions(log + [r0] + [r1] + [r2], r3);
  }

  /** A drill stopped by the lock has opened nothing. */
  lemma DrillStopped(a: Attester, live: Artefact)
    requires a.Valid() && a.IsClean() && a.attempted == DrillEvidence(live, live)[..1]
    ensures LeavesOpen(a, OpenIncidents(a.base), LiveArtefact(a.base))
  {
    OneRecord(a);
    OthersLeaveOpen(a.base, a.records[0]);
    SnocFunctions(a.base, a.records[0]);
  }

  lemma DrillAborted(a: Attester, live: Artefact)
    requires a.Valid() && a.IsClean()
    requires a.attempted == DrillEvidence(live, live)[..1] + [IncidentDetected(false, true, live.digest, live.version)]
    ensures |a.records| == 2
    ensures LeavesOpen(a, OpenIncidents(a.base) + [IncidentOf(a.records[1])], LiveArtefact(a.base))
  {
    CleanFlow(a);
    var r, s := a.records[0], a.records[1];
    assert r.data == a.attempted[0] && s.data == a.attempted[1];
    hide Attester.Valid, OpenIncidents, LiveArtefact, IsWellNamed, IsComplete, Hold, Extends, IsNext;
    ExtendsTail(a.base, a.records);
    ExtendsTail(a.base + [r], a.records[1..]);
    assert a.records[1..][1..] == [];
    OthersLeaveOpen(a.base, r);
    SnocFunctions(a.base, r);
    IncidentMeans(a.base + [r], s);
  }

  lemma DrillIsFour(live: Artefact, p: Artefact)
    ensures |DrillEvidence(live, p)| == 4 && |DrillEvidence(live, live)| == 4
  {
  }

  /** The drill's incident, and its way back. */
  method DrillBack(t: Target, a: Attester, live: Artefact, p: Artefact, fate: ApplyFate) returns (r: Applied)
    requires IsNew(a)
    modifies t, a`calls, a`records, a`unattested, a`failures, a`floor, a`effects, a`attempted, a.ledger
    ensures a.Valid()
    ensures r == match fate case Works => Ok case Breaks(_) => Error case Held(_) => LockedOut
    ensures r.LockedOut? ==> a.attempted == DrillEvidence(live, live)[..1]
    ensures r.Error? ==>
      a.attempted == DrillEvidence(live, live)[..1] + [IncidentDetected(false, true, live.digest, live.version)]
    ensures r.Ok? ==> a.attempted == DrillEvidence(live, p)[..3] && t.running == Some(p.digest)
  {
    hide IsGoodLog, AreKeyed, IsKeyed, Extends, RollbacksFollowApply, IsBelow, Hold, FileLedger.Valid, Attester.Accepts;
    a.Attest(IncidentDetected(true, false, live.digest, live.version));
    r := ApplyTo(t, a, p, fate);
    if r.Error? {
      a.Attest(IncidentDetected(false, true, live.digest, live.version));
    } else if r.Ok? {
      a.Attest(RolledBack(true, false, live.digest, p.digest, p.version));
      a.Attest(Restored(true, Some(p.digest), Absent, None));
    }
  }

  /** The drill's roll-forward: what it leaves running is recorded, whichever it is. */
  method DrillForward(t: Target, a: Attester, live: Artefact, p: Artefact, fate: ApplyFate) returns (r: Applied)
    requires a.Valid() && a.attempted == DrillEvidence(live, p)[..3] && live.digest != "" && p.digest != ""
    modifies t, a`calls, a`records, a`unattested, a`failures, a`floor, a`effects, a`attempted, a.ledger
    ensures a.Valid()
    ensures r == match fate case Works => Ok case Breaks(_) => Error case Held(_) => LockedOut
    ensures r.Ok? ==> a.attempted == DrillEvidence(live, p) && t.running == Some(live.digest)
    ensures !r.Ok? ==> a.attempted == StayedEvidence(live, p)
  {
    hide IsGoodLog, AreKeyed, IsKeyed, Extends, RollbacksFollowApply, IsBelow, Hold, FileLedger.Valid, Attester.Accepts;
    r := ApplyTo(t, a, live, fate);
    a.Attest(if r.Ok? then Deployed(Drill, live, p.digest) else Deployed(Rollback, p, live.digest));
  }

  /** What a drill says: the simulated incident; a real one if the way back fails; and otherwise what
      it rolled back from and to, the recovery, and what the roll-forward left live. */
  predicate SaidDrill(es: seq<Evidence>, end: End, live: Artefact, p: Artefact) {
    es == [IncidentDetected(true, false, live.digest, live.version)] +
      match end
      case LockHeld => []
      case DrillFailed => [IncidentDetected(false, true, live.digest, live.version)]
      case _ =>
        [RolledBack(true, false, live.digest, p.digest, p.version), Restored(true, Some(p.digest), Absent, None),
         if end == Drilled then Deployed(Drill, live, p.digest) else Deployed(Rollback, p, live.digest)]
  }

  lemma DrillIsSaid(live: Artefact, p: Artefact)
    ensures SaidDrill(DrillEvidence(live, live)[..1], LockHeld, live, p)
    ensures SaidDrill(DrillEvidence(live, live)[..1] + [IncidentDetected(false, true, live.digest, live.version)],
                      DrillFailed, live, p)
    ensures SaidDrill(DrillEvidence(live, p), Drilled, live, p)
    ensures SaidDrill(StayedEvidence(live, p), StayedBack, live, p)
  {
  }

  /**
   * `drill`. With every record accepted: a drill that succeeds changes neither the open
   * incidents, nor what is live, nor what a rollback would go back to; one whose roll-forward
   * fails, locked out or not, leaves the previous artefact live and says so; one whose rollback
   * fails is a real incident.
   */
  method DrillOnce(t: Target, a: Attester, fits: bool, builds: bool, back: ApplyFate, again: ApplyFate)
    returns (end: End)
    requires IsNew(a)
    modifies t, a`calls, a`records, a`unattested, a`failures, a`floor, a`effects, a`attempted, a.ledger
    ensures a.Valid()
    ensures end in {NothingEarlier, SchemaRefused, NotBuilt, LockHeld, DrillFailed, StayedBack, Drilled}
    ensures end == NothingEarlier <==> RollbackTarget(a.base).None?
    ensures RollbackTarget(a.base).Some? ==>
      && (end == SchemaRefused <==> !fits)
      && (end == NotBuilt <==> fits && !builds)
      && (end == LockHeld <==> fits && builds && back.Held?)
      && (end == DrillFailed <==> fits && builds && back.Breaks?)
      && (end == Drilled <==> fits && builds && back.Works? && again.Works?)
    ensures end in {NothingEarlier, SchemaRefused, NotBuilt} ==> WroteNothing(a) && t.running == old(t.running)
    ensures end == LockHeld && a.IsClean() ==> LeavesOpen(a, OpenIncidents(a.base), LiveArtefact(a.base))
    ensures end == DrillFailed && a.IsClean() ==>
      && |a.records| == 2
      && LeavesOpen(a, OpenIncidents(a.base) + [IncidentOf(a.records[1])], LiveArtefact(a.base))
    ensures end == StayedBack <==> RollbackTarget(a.base).Some? && fits && builds && back.Works? && !again.Works?
    ensures end == StayedBack && a.IsClean() ==> LeavesOpen(a, OpenIncidents(a.base), RollbackTarget(a.base))
    ensures end == Drilled ==> again.Works? && t.running == Some(LiveArtefact(a.base).value.digest)
    ensures end == Drilled && a.IsClean() ==>
      && LeavesOpen(a, OpenIncidents(a.base), LiveArtefact(a.base))
      && RollbackTarget(a.ledger.records) == RollbackTarget(a.base)
    ensures end in {LockHeld, DrillFailed, StayedBack, Drilled} ==>
      && LiveArtefact(a.base).Some? && RollbackTarget(a.base).Some?
      && SaidDrill(a.attempted, end, LiveArtefact(a.base).value, RollbackTarget(a.base).value)
  {
    hide IsGoodLog, AreKeyed, IsKeyed, Extends, RollbacksFollowApply, IsBelow, Hold, FileLedger.Valid, OpenIncidents,
      LiveArtefact, PreviousArtefact, Attester.Accepts, SaidDrill, DrillEvidence, StayedEvidence;
    var running := LiveArtefact(a.ledger.records);
    var previous := if running.None? then None else PreviousArtefact(a.ledger.records, running.value.digest);
    if running.None? || previous.None? {
      return NothingEarlier;
    }
    var live, p := running.value, previous.value;
    DrillIsSaid(live, p);
    DrillIsFour(live, p);
    if !fits {
      return SchemaRefused;
    }
    if !builds {
      return NotBuilt;
    }
    CleanFlow(a);
    LiveIsComplete(a.base);
    var restored := DrillBack(t, a, live, p, back);
    if restored.LockedOut? {
      if a.IsClean() {
        DrillStopped(a, live);
      }
      return LockHeld;
    }
    if restored.Error? {
      if a.IsClean() {
        DrillAborted(a, live);
      }
      return DrillFailed;
    }
    var forward := DrillForward(t, a, live, p, again);
    if !forward.Ok? {
      if a.IsClean() {
        StayedOnLedger(a, live, p);
      }
      return StayedBack;
    }
    if a.IsClean() {
      DrillOnLedger(a, live, p);
    }
    return Drilled;
  }
}
