/** Forward, rollback and drill, and the evidence they write (src/rail/deploy/flow.py). */
module DeployFlows {
  import opened Wrappers
  import opened FileStore
  import opened Incidents
  import opened DeployLog

  // ---------------------------------------------------------------- the target

  /** What one `apply` does: it works, breaks and leaves something, or finds the lock held. */
  datatype ApplyFate = Works | Breaks(leaves: Option<string>) | Held(holder: Option<string>)

  datatype Applied = Ok | Error | LockedOut

  class Target {
    /** The digest the target runs, when it is known to run one. */
    var running: Option<string>

    constructor (running: Option<string>)
      ensures this.running == running
    {
      this.running := running;
    }

    method Apply(a: Artefact, fate: ApplyFate) returns (r: Applied)
      modifies this
      ensures r.Ok? ==> running == Some(a.digest)
      ensures r == match fate case Works => Ok case Breaks(_) => Error case Held(_) => LockedOut
    {
      match fate
      case Works => running := Some(a.digest); r := Ok;
      case Breaks(leaves) => running := leaves; r := Error;
      case Held(holder) => running := holder; r := LockedOut;
    }
  }

  // ---------------------------------------------------------------- the attester

  /** What becomes of one attestation, besides a conflict of keys. */
  datatype Fate = Accepted | Spooled | Refused

  /** The wall clock, the ledger's answers and the digests, call by call: none is constrained
      but for digests, which no record on file has or names. */
  datatype World = World(clock: nat -> int, fates: nat -> Fate, digests: nat -> int)

  datatype Effect = AppliedOk(digest: string) | Wrote(e: Evidence)

  /** Every `rolled_back` comes right after the artefact it goes back to was applied. */
  ghost predicate RollbacksFollowApply(effects: seq<Effect>) {
    forall i :: 0 <= i < |effects| && effects[i].Wrote? && effects[i].e.RolledBack? ==>
      i > 0 && effects[i - 1] == AppliedOk(effects[i].e.toDigest)
  }

  ghost predicate KeysMatchStamps(log: seq<Rec>) {
    forall r :: r in log && r.key.EventKey? ==> r.key.stamp == Stamp(r.at)
  }

  ghost predicate IsComplete(log: seq<Rec>) {
    forall r :: r in log ==>
      (r.data.Deployed? ==> r.data.artefact.digest != "") && (r.data.Released? ==> r.data.artefact.digest != "")
  }

  ghost predicate AreUnknown(log: seq<Rec>, digests: nat -> int, calls: nat) {
    && (forall n: nat, r :: n >= calls && r in log ==> digests(n) != r.digest)
    && (forall n: nat, r :: n >= calls && r in log && r.data.Restored? ==> r.data.incident != Names(digests(n)))
    && (forall m: nat, n: nat :: calls <= m < n ==> digests(m) != digests(n))
  }

  ghost predicate IsBelow(log: seq<Rec>, floor: int) {
    forall r :: r in log ==> r.at + SECOND <= floor
  }

  /** What an attester needs of the records on file. */
  ghost predicate IsGoodLog(log: seq<Rec>, project: string, digests: nat -> int, calls: nat) {
    && (forall r :: r in log ==> r.project == project)
    && IsWellNamed(log) && KeysMatchStamps(log) && IsComplete(log) && AreUnknown(log, digests, calls)
  }

  /** A record that may come next. */
  ghost predicate IsAcceptable(log: seq<Rec>, project: string, digests: nat -> int, calls: nat, r: Rec) {
    && r.project == project && r.digest == digests(calls)
    && IsBelow(log, r.at) && (r.key.EventKey? ==> r.key.stamp == Stamp(r.at))
    && (r.data.Restored? ==> forall n: nat :: n >= calls ==> r.data.incident != Names(digests(n)))
    && (r.data.Deployed? ==> r.data.artefact.digest != "")
    && (r.data.Released? ==> r.data.artefact.digest != "")
  }

  lemma NextIsWellNamed(log: seq<Rec>, project: string, digests: nat -> int, calls: nat, r: Rec)
    requires IsGoodLog(log, project, digests, calls) && IsAcceptable(log, project, digests, calls, r)
    ensures IsNext(log, r)
  {
  }

  lemma NextKeepsGoodLog(log: seq<Rec>, project: string, digests: nat -> int, calls: nat, r: Rec)
    requires IsGoodLog(log, project, digests, calls) && IsAcceptable(log, project, digests, calls, r)
    ensures IsGoodLog(log + [r], project, digests, calls + 1)
  {
  }

  /** No other record of the log is in the second of `r`. */
  ghost predicate IsAlone(log: seq<Rec>, r: Rec) {
    forall x :: x in log ==> Stamp(x.at) < Stamp(r.at)
  }

  lemma SecondsGrow(log: seq<Rec>, at: int)
    requires IsBelow(log, at)
    ensures forall x :: x in log ==> Stamp(x.at) < Stamp(at)
  {
  }

  /** Each record of `rs` came next after `log` and the ones before it. */
  ghost predicate Extends(log: seq<Rec>, rs: seq<Rec>) {
    forall k :: 0 <= k < |rs| ==> IsNext(log + rs[..k], rs[k])
  }

  lemma ExtendsSnoc(log: seq<Rec>, rs: seq<Rec>, r: Rec)
    requires Extends(log, rs) && IsNext(log + rs, r)
    ensures Extends(log, rs + [r])
    ensures log + (rs + [r]) == log + rs + [r]
  {
    forall k | 0 <= k < |rs + [r]| ensures IsNext(log + (rs + [r])[..k], (rs + [r])[k]) {
      if k < |rs| {
        assert (rs + [r])[..k] == rs[..k];
      } else {
        assert (rs + [r])[..k] == rs;
      }
    }
  }

  lemma GrownExtends(was: seq<Rec>, base: seq<Rec>, rs: seq<Rec>, r: Rec)
    requires was == base + rs && Extends(base, rs) && IsNext(was, r)
    ensures was + [r] == base + (rs + [r]) && Extends(base, rs + [r])
  {
    hide IsNext, Extends;
    ExtendsSnoc(base, rs, r);
  }

  /** An instant is no earlier than the clock, and later only where it must be: a second after the
      previous call, or, for a first call, after the newest record or at the clock's first reading. */
  ghost predicate IsTimely(log: seq<Rec>, previous: Option<int>, first: int, clock: int, at: int) {
    && at >= clock
    && (at > clock ==>
          if previous.Some? then at == previous.value
          else if log == [] then at == first
          else at == log[|log| - 1].at + SECOND)
  }

  /** The records hold exactly this evidence, in this order. */
  ghost predicate Hold(rs: seq<Rec>, es: seq<Evidence>) {
    |rs| == |es| && forall k :: 0 <= k < |rs| ==> rs[k].data == es[k]
  }

  lemma LossKeepsGoodLog(log: seq<Rec>, project: string, digests: nat -> int, calls: nat)
    requires IsGoodLog(log, project, digests, calls)
    ensures IsGoodLog(log, project, digests, calls + 1)
  {
  }

  lemma WroteKeepsOrder(effects: seq<Effect>, e: Evidence)
    requires RollbacksFollowApply(effects)
    requires e.RolledBack? ==> effects != [] && effects[|effects| - 1] == AppliedOk(e.toDigest)
    ensures RollbacksFollowApply(effects + [Wrote(e)])
  {
  }

  lemma HoldSnoc(rs: seq<Rec>, es: seq<Evidence>, r: Rec)
    requires Hold(rs, es)
    ensures Hold(rs + [r], es + [r.data])
  {
  }

  /** The record names its project, its kind and its target, and its key the second. */
  predicate IsKeyed(r: Rec, project: string, target: string) {
    && r.project == project && r.key.EventKey? && r.key.kind == r.kind && r.key.target == target
    && r.key.stamp == r.at / 1_000_000
    && match r.data
       case Released(a) => r.kind == "released" && r.key.subject == a.digest
       case Deployed(_, a, _) => r.kind == "deployed" && r.key.subject == a.digest
       case RolledBack(_, _, _, _, _) => r.kind == "rolled_back" && r.key.subject == "-"
       case IncidentDetected(_, _, digest, _) => r.kind == "incident_detected" && r.key.subject == digest
       case Restored(_, back, _, _) =>
         r.kind == "restored" && r.key.subject == if back.Some? then back.value else "-"
       case Unrelated(_) => true
  }

  ghost predicate AreKeyed(rs: seq<Rec>, project: string, target: string) {
    forall r :: r in rs ==> IsKeyed(r, project, target)
  }

  lemma KeyedSnoc(rs: seq<Rec>, r: Rec, project: string, target: string)
    requires AreKeyed(rs, project, target) && IsKeyed(r, project, target)
    ensures AreKeyed(rs + [r], project, target)
  {
  }

  class Attester {
    const ledger: FileLedger<Key, Evidence>
    const project: string
    const target: string
    const issuer: string
    const world: World
    var calls: nat
    var records: seq<Rec>
    var unattested: nat
    var failures: nat
    var floor: Option<int>
    ghost var effects: seq<Effect>
    /** The ledger when this attester was made, and the evidence it was asked to record since. */
    ghost var base: seq<Rec>
    ghost var attempted: seq<Evidence>

    ghost predicate Valid()
      reads this, ledger
    {
      && ledger.Valid()
      && ledger.records == base + records && Extends(base, records)
      && (IsClean() ==> Hold(records, attempted)) && AreKeyed(records, project, target)
      && IsGoodLog(ledger.records, project, world.digests, calls)
      && (floor.Some? ==> IsBelow(ledger.records, floor.value))
      && RollbacksFollowApply(effects)
    }

    /** Every attestation so far was recorded. */
    predicate IsClean()
      reads this
    {
      unattested == 0 && failures == 0
    }

    constructor (ledger: FileLedger<Key, Evidence>, project: string, target: string, issuer: string, world: World)
      requires ledger.Valid() && IsGoodLog(ledger.records, project, world.digests, 0)
      ensures Valid() && IsClean() && records == [] && effects == [] && attempted == []
      ensures base == ledger.records && fresh(this)
      ensures this.ledger == ledger && this.project == project && this.target == target && this.world == world
    {
      this.ledger := ledger;
      this.project := project;
      this.target := target;
      this.issuer := issuer;
      this.world := world;
      calls := 0;
      records := [];
      unattested := 0;
      failures := 0;
      floor := None;
      effects := [];
      base := ledger.records;
      attempted := [];
    }

    /** The newest instant on record. */
    method Newest() returns (newest: Option<int>)
      requires ledger.Valid()
      ensures newest.None? <==> ledger.records == []
      ensures newest.Some? ==> forall r :: r in ledger.records ==> r.at <= newest.value
      ensures newest.Some? ==> newest.value == ledger.records[|ledger.records| - 1].at
    {
      var n := |ledger.records|;
      newest := if n == 0 then None else Some(ledger.records[n - 1].at);
    }

    /**
     * `_emitted_at`: whatever the clock reads, an instant one second or more after every record
     * on file and after this attester's own previous one.
     */
    method EmittedAt() returns (emitted: int)
      requires Valid()
      modifies this`floor
      ensures Valid()
      ensures floor == Some(emitted + SECOND)
      ensures old(floor).Some? ==> emitted >= old(floor).value
      ensures IsBelow(ledger.records, emitted)
      ensures IsTimely(ledger.records, old(floor), world.clock(2 * calls), world.clock(2 * calls + 1), emitted)
    {
      if floor.None? {
        var newest := Newest();
        floor := Some(if newest.Some? then newest.value + SECOND else world.clock(2 * calls));
      }
      var now := world.clock(2 * calls + 1);
      emitted := if now > floor.value then now else floor.value;
      floor := Some(emitted + SECOND);
    }

    ghost predicate MayWrite(e: Evidence)
      reads this
    {
      && (e.Restored? ==> forall n: nat :: n >= calls ==> e.incident != Names(world.digests(n)))
      && (e.Deployed? ==> e.artefact.digest != "")
      && (e.Released? ==> e.artefact.digest != "")
      && (e.RolledBack? ==> effects != [] && effects[|effects| - 1] == AppliedOk(e.toDigest))
    }

    lemma KeyIsFree(key: Key, emitted: int)
      requires KeysMatchStamps(ledger.records) && key.EventKey? && key.stamp == Stamp(emitted)
      requires IsBelow(ledger.records, emitted)
      ensures !ledger.HasKey(project, key)
    {
    }

    /** The ledger takes the record: no key collides, and it is listed last. */
    method Append(e: Evidence, emitted: int) returns (r: Rec)
      requires ledger.Valid() && IsGoodLog(ledger.records, project, world.digests, calls)
      requires MayWrite(e) && IsBelow(ledger.records, emitted)
      modifies ledger
      ensures ledger.Valid() && IsGoodLog(ledger.records, project, world.digests, calls + 1)
      ensures IsBelow(ledger.records, emitted + SECOND)
      ensures ledger.records == old(ledger.records) + [r]
      ensures r.data == e && r.digest == world.digests(calls) && IsNext(old(ledger.records), r)
      ensures IsAlone(old(ledger.records), r) && IsKeyed(r, project, target) && r.at == emitted
    {
      var key := KeyFor(e, target, emitted);
      KeyIsFree(key, emitted);
      SecondsGrow(ledger.records, emitted);
      r := Receipt(project, key, KindOf(e), e, issuer, emitted, world.digests(calls));
      NextIsWellNamed(ledger.records, project, world.digests, calls, r);
      NextKeepsGoodLog(ledger.records, project, world.digests, calls, r);
      var w := ledger.Append(project, key, KindOf(e), e, issuer, emitted, world.digests(calls));
    }

    /** `r` is on the ledger, and the attester has yet to note it. */
    ghost predicate IsNoted(e: Evidence, r: Rec)
      reads this, ledger
    {
      && ledger.Valid() && ledger.records == base + (records + [r]) && Extends(base, records + [r])
      && (IsClean() ==> Hold(records + [r], attempted + [e])) && AreKeyed(records + [r], project, target)
      && IsGoodLog(ledger.records, project, world.digests, calls + 1)
      && (floor.Some? ==> IsBelow(ledger.records, floor.value))
      && RollbacksFollowApply(effects + [Wrote(e)])
    }

    /** The attester's own account of a record the ledger took. */
    method Note(e: Evidence, r: Rec)
      requires IsNoted(e, r)
      modifies this`calls, this`records, this`effects, this`attempted
      ensures Valid() && calls == old(calls) + 1 && records == old(records) + [r]
      ensures effects == old(effects) + [Wrote(e)] && attempted == old(attempted) + [e]
    {
      hide IsGoodLog, AreKeyed, Extends, Hold, RollbacksFollowApply, IsBelow, FileLedger.Valid;
      records := records + [r];
      calls := calls + 1;
      effects := effects + [Wrote(e)];
      attempted := attempted + [e];
    }

    lemma MayWriteKeepsOrder(e: Evidence)
      requires MayWrite(e) && RollbacksFollowApply(effects)
      ensures RollbacksFollowApply(effects + [Wrote(e)])
    {
      WroteKeepsOrder(effects, e);
    }

    lemma GrownHolds(e: Evidence, r: Rec)
      requires IsClean() ==> Hold(records, attempted)
      requires r.data == e
      ensures IsClean() ==> Hold(records + [r], attempted + [e])
    {
      if IsClean() {
        HoldSnoc(records, attempted, r);
      }
    }

    /** The ledger takes the record, and the attester may note it. */
    method Take(e: Evidence, emitted: int) returns (r: Rec)
      requires Valid() && MayWrite(e) && IsBelow(ledger.records, emitted)
      requires floor == Some(emitted + SECOND)
      modifies ledger
      ensures IsNoted(e, r)
      ensures ledger.records == old(ledger.records) + [r] && r.data == e && r.digest == world.digests(calls)
      ensures IsNext(old(ledger.records), r) && IsAlone(old(ledger.records), r)
      ensures IsKeyed(r, project, target) && r.at == emitted
    {
      hide IsGoodLog, AreKeyed, Extends, IsNext, Hold, RollbacksFollowApply, IsBelow, FileLedger.Valid, IsAlone,
        MayWrite;
      MayWriteKeepsOrder(e);
      ghost var was := ledger.records;
      r := Append(e, emitted);
      GrownExtends(was, base, records, r);
      GrownHolds(e, r);
      KeyedSnoc(records, r, project, target);
    }

    /** An accepted attestation. */
    method Record(e: Evidence, emitted: int)
      requires Valid() && MayWrite(e) && IsBelow(ledger.records, emitted)
      requires floor == Some(emitted + SECOND)
      modifies this`calls, this`records, this`effects, this`attempted, ledger
      ensures Valid() && calls == old(calls) + 1
      ensures effects == old(effects) + [Wrote(e)] && attempted == old(attempted) + [e]
      ensures Accepts(e) && ledger.records[|old(ledger.records)|].at == emitted
    {
      hide IsNoted, Valid, IsBelow, IsNext, IsAlone, MayWrite, IsKeyed;
      var r := Take(e, emitted);
      Note(e, r);
    }

    /** An attestation the ledger did not record. */
    method Lose(e: Evidence, spooled: bool)
      requires Valid() && MayWrite(e)
      modifies this`calls, this`unattested, this`failures, this`effects, this`attempted
      ensures Valid() && calls == old(calls) + 1 && !IsClean()
      ensures effects == old(effects) + [Wrote(e)] && attempted == old(attempted) + [e]
    {
      LossKeepsGoodLog(ledger.records, project, world.digests, calls);
      WroteKeepsOrder(effects, e);
      if spooled {
        unattested := unattested + 1;
      } else {
        failures := failures + 1;
      }
      calls := calls + 1;
      effects := effects + [Wrote(e)];
      attempted := attempted + [e];
    }

    /** What one accepted attestation adds to the ledger. */
    twostate predicate Accepts(e: Evidence)
      reads this, ledger
    {
      && |ledger.records| == |old(ledger.records)| + 1
      && var r := ledger.records[|old(ledger.records)|];
         && ledger.records == old(ledger.records) + [r] && records == old(records) + [r]
         && r.data == e && r.digest == world.digests(old(calls)) && IsNext(old(ledger.records), r)
         && IsAlone(old(ledger.records), r) && IsKeyed(r, project, target)
    }

    /**
     * `attest`: an accepted record is the newest of the ledger, under a key nothing has, in a
     * second of its own; otherwise the ledger is unchanged and the loss is counted.
     */
    method Attest(e: Evidence)
      requires Valid() && MayWrite(e)
      modifies this`calls, this`records, this`unattested, this`failures, this`floor
      modifies this`effects, this`attempted, ledger
      ensures Valid() && calls == old(calls) + 1
      ensures effects == old(effects) + [Wrote(e)] && attempted == old(attempted) + [e]
      ensures IsClean() <==> old(IsClean()) && world.fates(old(calls)).Accepted?
      ensures old(records) <= records
      ensures world.fates(old(calls)).Accepted? ==> Accepts(e)
      ensures world.fates(old(calls)).Accepted? ==>
        IsTimely(old(ledger.records), old(floor), world.clock(2 * old(calls)), world.clock(2 * old(calls) + 1),
                 ledger.records[|old(ledger.records)|].at)
      ensures !world.fates(old(calls)).Accepted? ==>
        ledger.records == old(ledger.records) && records == old(records)
    {
      hide IsGoodLog, AreKeyed, Extends, IsNext, Hold, RollbacksFollowApply, FileLedger.Valid, IsBelow, IsTimely,
        IsKeyed;
      var emitted := EmittedAt();
      var fate := world.fates(calls);
      match fate
      case Accepted => Record(e, emitted);
      case Spooled => Lose(e, true);
      case Refused => Lose(e, false);
    }
  }

  // ---------------------------------------------------------------- the evidence of each ending

  function DigestOf(a: Option<Artefact>): string {
    if a.Some? then a.value.digest else ""
  }

  /** A change went live: it is deployed, and every incident open before it is over. */
  function LiveEvidence(a: Artefact, previous: Option<Artefact>, open: seq<Incident>, at: int, n: nat): seq<Evidence>
    requires n <= |open|
  {
    [Deployed(Release, a, DigestOf(previous))]
      + seq(n, i requires 0 <= i < n => Restored(false, None, Names(open[i].digest), Some(at)))
  }

  /** A completed rollback: it is over, what is live now, and the recovery. */
  function ReturnEvidence(automatic: bool, from: string, p: Artefact, version: string, incident: Reference)
    : seq<Evidence>
  {
    [RolledBack(false, automatic, from, p.digest, version),
     Deployed(Rollback, p, from),
     Restored(false, Some(p.digest), incident, None)]
  }

  /** A change failed and the previous artefact came back. */
  function CameBackEvidence(a: Artefact, previous: Artefact, incident: Reference): seq<Evidence> {
    [IncidentDetected(false, true, a.digest, a.version)] +
      ReturnEvidence(true, a.digest, previous, a.version, incident)
  }

  function RollbackEvidence(live: Artefact, previous: Artefact, incident: Reference): seq<Evidence> {
    ReturnEvidence(false, live.digest, previous, previous.version, incident)
  }

  function DrillEvidence(live: Artefact, previous: Artefact): seq<Evidence> {
    [IncidentDetected(true, false, live.digest, live.version),
     RolledBack(true, false, live.digest, previous.digest, previous.version),
     Restored(true, Some(previous.digest), Absent, None),
     Deployed(Drill, live, previous.digest)]
  }

  // ---------------------------------------------------------------- what it means for the ledger

  lemma ExtendsTail(log: seq<Rec>, rs: seq<Rec>)
    requires Extends(log, rs) && rs != []
    ensures IsNext(log, rs[0]) && Extends(log + [rs[0]], rs[1..])
    ensures log + rs == log + [rs[0]] + rs[1..]
  {
    assert log + rs[..0] == log;
    forall k | 0 <= k < |rs[1..]| ensures IsNext(log + [rs[0]] + rs[1..][..k], rs[1..][k]) {
      assert log + [rs[0]] + rs[1..][..k] == log + rs[..k + 1];
      assert IsNext(log + rs[..k + 1], rs[k + 1]);
    }
  }

  lemma NextStaysWellNamed(log: seq<Rec>, r: Rec)
    requires IsNext(log, r)
    ensures IsWellNamed(log + [r])
  {
  }

  predicate IsRealIncident(e: Evidence) {
    e.IncidentDetected? && !e.drill
  }

  predicate IsRealRecovery(e: Evidence) {
    e.Restored? && !e.drill
  }

  /** Two records that say nothing of real incidents. */
  lemma QuietPair(log: seq<Rec>, r: Rec, s: Rec)
    requires !IsRealIncident(r.data) && !IsRealRecovery(r.data) && !IsRealIncident(s.data) && !IsRealRecovery(s.data)
    ensures OpenIncidents(log + [r] + [s]) == OpenIncidents(log)
  {
    OthersLeaveOpen(log, r);
    OthersLeaveOpen(log + [r], s);
  }

  /** The recoveries name the incidents one by one. */
  ghost predicate NameInOrder(rs: seq<Rec>, open: seq<Incident>) {
    |rs| == |open| && forall k :: 0 <= k < |rs| ==>
      IsRealRecovery(rs[k].data) && rs[k].data.incident == Names(open[k].digest)
  }

  lemma NameInOrderTail(rs: seq<Rec>, open: seq<Incident>)
    requires NameInOrder(rs, open) && rs != []
    ensures NameInOrder(rs[1..], open[1..])
  {
  }

  lemma OldestCloses(log: seq<Rec>, r: Rec)
    requires IsNext(log, r) && IsWellNamed(log) && OpenIncidents(log) != []
    requires IsRealRecovery(r.data) && r.data.incident == Names(OpenIncidents(log)[0].digest)
    ensures OpenIncidents(log + [r]) == OpenIncidents(log)[1..]
    ensures LiveArtefact(log + [r]) == LiveArtefact(log) && IsWellNamed(log + [r])
  {
    NamedRestoreCloses(log, r, 0);
    SnocFunctions(log, r);
    assert Without(OpenIncidents(log), 0) == OpenIncidents(log)[1..];
  }

  /** Recoveries that name the open incidents in order close them all. */
  lemma {:induction false} RestoresCloseAll(log: seq<Rec>, rs: seq<Rec>)
    requires IsWellNamed(log) && Extends(log, rs) && NameInOrder(rs, OpenIncidents(log))
    ensures OpenIncidents(log + rs) == [] && LiveArtefact(log + rs) == LiveArtefact(log)
    decreases |rs|
  {
    if rs == [] {
      assert log + rs == log;
    } else {
      NameInOrderTail(rs, OpenIncidents(log));
      ExtendsTail(log, rs);
      OldestCloses(log, rs[0]);
      RestoresCloseAll(log + [rs[0]], rs[1..]);
    }
  }

  lemma LiveEvidenceNames(rs: seq<Rec>, a: Artefact, previous: Option<Artefact>, open: seq<Incident>, at: int)
    requires Hold(rs, LiveEvidence(a, previous, open, at, |open|))
    ensures rs != [] && rs[0].data.Deployed? && rs[0].data.artefact == a
    ensures NameInOrder(rs[1..], open)
  {
  }

  /** A successful forward leaves no incident open, and its artefact live. */
  lemma LiveMeans(log: seq<Rec>, rs: seq<Rec>, a: Artefact, previous: Option<Artefact>, at: int)
    requires IsWellNamed(log) && Extends(log, rs)
    requires Hold(rs, LiveEvidence(a, previous, OpenIncidents(log), at, |OpenIncidents(log)|))
    ensures OpenIncidents(log + rs) == [] && LiveArtefact(log + rs) == Some(a)
  {
    LiveEvidenceNames(rs, a, previous, OpenIncidents(log), at);
    ExtendsTail(log, rs);
    NextStaysWellNamed(log, rs[0]);
    OthersLeaveOpen(log, rs[0]);
    SnocFunctions(log, rs[0]);
    RestoresCloseAll(log + [rs[0]], rs[1..]);
  }

  /** A failed change that is rolled back leaves the earlier open incidents as they were. */
  lemma CameBackMeans(log: seq<Rec>, r0: Rec, r1: Rec, r2: Rec, r3: Rec, a: Artefact, previous: Artefact)
    requires IsNext(log, r0) && IsNext(log + [r0], r1) && IsNext(log + [r0] + [r1], r2)
    requires IsNext(log + [r0] + [r1] + [r2], r3)
    requires [r0.data, r1.data, r2.data, r3.data] == CameBackEvidence(a, previous, Names(r0.digest))
    ensures OpenIncidents(log + [r0] + [r1] + [r2] + [r3]) == OpenIncidents(log)
    ensures LiveArtefact(log + [r0] + [r1] + [r2] + [r3]) == Some(previous)
  {
    var es := CameBackEvidence(a, previous, Names(r0.digest));
    assert r0.data == es[0] && r1.data == es[1] && r2.data == es[2] && r3.data == es[3];
    var open := OpenIncidents(log);
    IncidentOpens(log, r0);
    QuietPair(log + [r0], r1, r2);
    NamedRestoreCloses(log + [r0] + [r1] + [r2], r3, |open|);
    assert Without(open + [Incident(r0.digest, r0.at)], |open|) == open;
    SnocFunctions(log + [r0] + [r1], r2);
    SnocFunctions(log + [r0] + [r1] + [r2], r3);
  }

  /** A rollback closes exactly the oldest open incident, and swaps what is live with what was. */
  lemma RollbackMeans(log: seq<Rec>, r0: Rec, r1: Rec, r2: Rec, live: Artefact, previous: Artefact)
    requires IsNext(log, r0) && IsNext(log + [r0], r1) && IsNext(log + [r0] + [r1], r2)
    requires LiveArtefact(log) == Some(live) && live.digest != "" && previous.digest != live.digest
    requires var open := OpenIncidents(log);
      [r0.data, r1.data, r2.data] ==
        RollbackEvidence(live, previous, if open == [] then Absent else Names(open[0].digest))
    ensures var open := OpenIncidents(log);
      OpenIncidents(log + [r0] + [r1] + [r2]) == if open == [] then [] else open[1..]
    ensures LiveArtefact(log + [r0] + [r1] + [r2]) == Some(previous)
    ensures RollbackTarget(log + [r0] + [r1] + [r2]) == Some(live)
  {
    var open := OpenIncidents(log);
    var es := RollbackEvidence(live, previous, if open == [] then Absent else Names(open[0].digest));
    assert r0.data == es[0] && r1.data == es[1] && r2.data == es[2];
    RollbackOpen(log, r0, r1, r2);
    SwapArtefacts(log, r0, r1, r2, live, previous);
  }

  lemma RollbackOpen(log: seq<Rec>, r0: Rec, r1: Rec, r2: Rec)
    requires IsNext(log + [r0] + [r1], r2)
    requires r0.data.RolledBack? && r1.data.Deployed? && IsRealRecovery(r2.data)
    requires var open := OpenIncidents(log);
      r2.data.incident == if open == [] then Absent else Names(open[0].digest)
    requires IsWellNamed(log + [r0] + [r1])
    ensures var open := OpenIncidents(log);
      OpenIncidents(log + [r0] + [r1] + [r2]) == if open == [] then [] else open[1..]
  {
    var open := OpenIncidents(log);
    QuietPair(log, r0, r1);
    if open == [] {
      LegacyRestoreCloses(log + [r0] + [r1], r2);
    } else {
      NamedRestoreCloses(log + [r0] + [r1], r2, 0);
      assert Without(open, 0) == open[1..];
    }
  }

  lemma SwapArtefacts(log: seq<Rec>, r0: Rec, r1: Rec, r2: Rec, live: Artefact, previous: Artefact)
    requires LiveArtefact(log) == Some(live) && live.digest != "" && previous.digest != live.digest
    requires r0.data.RolledBack? && r1.data.Deployed? && r1.data.artefact == previous && r2.data.Restored?
    ensures LiveArtefact(log + [r0] + [r1] + [r2]) == Some(previous)
    ensures RollbackTarget(log + [r0] + [r1] + [r2]) == Some(live)
  {
    SnocFunctions(log + [r0], r1);
    SnocFunctions(log + [r0] + [r1], r2);
    SnocPrevious(log, r0, previous.digest);
    SnocPrevious(log + [r0], r1, previous.digest);
    SnocPrevious(log + [r0] + [r1], r2, previous.digest);
    LiveIsPrevious(log, live, previous.digest);
  }

  lemma {:induction false} LiveIsPrevious(log: seq<Rec>, live: Artefact, d: string)
    requires LiveArtefact(log) == Some(live) && live.digest != "" && live.digest != d
    ensures PreviousArtefact(log, d) == Some(live)
  {
    if !log[|log| - 1].data.Deployed? {
      LiveIsPrevious(log[..|log| - 1], live, d);
    }
  }

  /** A successful drill leaves the open incidents, what is live and what came before unchanged. */
  lemma DrillMeans(log: seq<Rec>, r0: Rec, r1: Rec, r2: Rec, r3: Rec, live: Artefact, previous: Artefact)
    requires LiveArtefact(log) == Some(live)
    requires [r0.data, r1.data, r2.data, r3.data] == DrillEvidence(live, previous)
    ensures OpenIncidents(log + [r0] + [r1] + [r2] + [r3]) == OpenIncidents(log)
    ensures LiveArtefact(log + [r0] + [r1] + [r2] + [r3]) == Some(live)
    ensures RollbackTarget(log + [r0] + [r1] + [r2] + [r3]) == RollbackTarget(log)
  {
    var es := DrillEvidence(live, previous);
    assert r0.data == es[0] && r1.data == es[1] && r2.data == es[2] && r3.data == es[3];
    QuietPair(log, r0, r1);
    QuietPair(log + [r0] + [r1], r2, r3);
    SnocFunctions(log + [r0] + [r1] + [r2], r3);
    SnocPrevious(log, r0, live.digest);
    SnocPrevious(log + [r0], r1, live.digest);
    SnocPrevious(log + [r0] + [r1], r2, live.digest);
    SnocPrevious(log + [r0] + [r1] + [r2], r3, live.digest);
  }

  /** A real incident alone joins the open ones; what is live stays. */
  lemma IncidentMeans(log: seq<Rec>, r: Rec)
    requires IsNext(log, r) && IsRealIncident(r.data)
    ensures OpenIncidents(log + [r]) == OpenIncidents(log) + [Incident(r.digest, r.at)]
    ensures LiveArtefact(log + [r]) == LiveArtefact(log)
  {
    IncidentOpens(log, r);
    SnocFunctions(log, r);
  }
}
