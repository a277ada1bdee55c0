/** What the ledger says of the deployments (src/rail/deploy/flow.py, ledger/__init__.py). */
module DeployLog {
  import opened Wrappers
  import opened FileStore
  import opened Incidents

  datatype Artefact = Artefact(version: string, sha: string, digest: string, image: string)

  datatype Mode = Release | Rollback | Drill

  /** The payload of one attestation a flow reads or writes. */
  datatype Evidence =
    | Released(artefact: Artefact)
    | Deployed(mode: Mode, artefact: Artefact, previousDigest: string)
    | RolledBack(drill: bool, automatic: bool, fromDigest: string, toDigest: string, version: string)
    | IncidentDetected(drill: bool, automatic: bool, digest: string, version: string)
    | Restored(drill: bool, back: Option<string>, incident: Reference, restoredAt: Option<int>)
    | Unrelated(text: string)

  /** `idempotency_key_for`: an event is keyed by kind, target, subject and emission second. */
  datatype Key =
    | EventKey(kind: string, target: string, subject: string, stamp: int)
    | ReleaseKey(version: string)
    | OtherKey(text: string)

  type Rec = Receipt<Key, Evidence>

  /** Instants are microseconds; a key holds the second. */
  const SECOND: int := 1_000_000

  function Stamp(at: int): int {
    at / SECOND
  }

  function KindOf(e: Evidence): string {
    match e
    case Released(_) => "released"
    case Deployed(_, _, _) => "deployed"
    case RolledBack(_, _, _, _, _) => "rolled_back"
    case IncidentDetected(_, _, _, _) => "incident_detected"
    case Restored(_, _, _, _) => "restored"
    case Unrelated(_) => "unrelated"
  }

  /** A record without a digest of its own has "-" for subject. */
  function SubjectOf(e: Evidence): string {
    match e
    case Released(a) => a.digest
    case Deployed(_, a, _) => a.digest
    case RolledBack(_, _, _, _, _) => "-"
    case IncidentDetected(_, _, d, _) => d
    case Restored(_, d, _, _) => if d.Some? then d.value else "-"
    case Unrelated(_) => "-"
  }

  function KeyFor(e: Evidence, target: string, at: int): Key {
    EventKey(KindOf(e), target, SubjectOf(e), Stamp(at))
  }

  // ---------------------------------------------------------------- what is live

  /** `live_artefact`: what the newest `deployed` says is live, whatever its mode. */
  function LiveArtefact(log: seq<Rec>): Option<Artefact> {
    if log == [] then None
    else if log[|log| - 1].data.Deployed? then Some(log[|log| - 1].data.artefact)
    else LiveArtefact(log[..|log| - 1])
  }

  /** `previous_artefact`: the newest deployed artefact whose digest is another one. */
  function PreviousArtefact(log: seq<Rec>, otherThan: string): (a: Option<Artefact>)
    ensures a.Some? ==> a.value.digest != otherThan && a.value.digest != ""
  {
    if log == [] then None
    else
      var e := log[|log| - 1].data;
      if e.Deployed? && e.artefact.digest != "" && e.artefact.digest != otherThan then Some(e.artefact)
      else PreviousArtefact(log[..|log| - 1], otherThan)
  }

  /** `newest_release`, for one version or for any. */
  function NewestRelease(log: seq<Rec>, version: Option<string>): Option<Artefact> {
    if log == [] then None
    else
      var e := log[|log| - 1].data;
      if e.Released? && (version.None? || e.artefact.version == version.value) then Some(e.artefact)
      else NewestRelease(log[..|log| - 1], version)
  }

  /** The `k`-th record is the newest release, of that version when one is asked for. */
  ghost predicate IsNewestRelease(log: seq<Rec>, version: Option<string>, k: nat) {
    && k < |log| && log[k].data.Released? && version in {None, Some(log[k].data.artefact.version)}
    && forall j :: k < j < |log| ==>
         !(log[j].data.Released? && version in {None, Some(log[j].data.artefact.version)})
  }

  /** What is released is the artefact of the newest release asked for, and nothing without one. */
  lemma {:induction false} ReleaseIsNewest(log: seq<Rec>, version: Option<string>)
    ensures NewestRelease(log, version).None? <==> forall k: nat :: !IsNewestRelease(log, version, k)
    ensures forall k: nat :: IsNewestRelease(log, version, k) ==>
      NewestRelease(log, version) == Some(log[k].data.artefact)
  {
    if log != [] {
      var init, last := log[..|log| - 1], log[|log| - 1];
      assert log == init + [last];
      ReleaseIsNewest(init, version);
      if last.data.Released? && version in {None, Some(last.data.artefact.version)} {
        assert IsNewestRelease(log, version, |init|);
      } else {
        forall k: nat ensures IsNewestRelease(log, version, k) <==> IsNewestRelease(init, version, k) {
          assert k < |init| ==> log[k] == init[k];
        }
      }
    }
  }

  /** What is live is the artefact of the newest deployment, whatever its mode. */
  lemma {:induction false} LiveIsNewest(log: seq<Rec>, k: nat)
    requires k < |log| && log[k].data.Deployed? && forall j :: k < j < |log| ==> !log[j].data.Deployed?
    ensures LiveArtefact(log) == Some(log[k].data.artefact)
    decreases |log|
  {
    if k < |log| - 1 {
      LiveIsNewest(log[..|log| - 1], k);
    }
  }

  predicate IsOther(r: Rec, digest: string) {
    r.data.Deployed? && r.data.artefact.digest != "" && r.data.artefact.digest != digest
  }

  /** The `k`-th record is the newest deployment of an artefact with another digest. */
  ghost predicate IsNewestOther(log: seq<Rec>, digest: string, k: nat) {
    k < |log| && IsOther(log[k], digest) && forall j :: k < j < |log| ==> !IsOther(log[j], digest)
  }

  lemma OtherStaysNewest(init: seq<Rec>, last: Rec, digest: string, k: nat)
    requires IsNewestOther(init, digest, k) && !IsOther(last, digest)
    ensures IsNewestOther(init + [last], digest, k) && (init + [last])[k] == init[k]
  {
  }

  /** It is the artefact of the newest deployment under another digest, and none without one. */
  lemma {:induction false} PreviousIsNewest(log: seq<Rec>, digest: string)
    ensures PreviousArtefact(log, digest).None? <==> forall r :: r in log ==> !IsOther(r, digest)
    ensures PreviousArtefact(log, digest).Some? ==>
      exists k: nat :: IsNewestOther(log, digest, k) && log[k].data.artefact == PreviousArtefact(log, digest).value
  {
    if log != [] {
      var init, last := log[..|log| - 1], log[|log| - 1];
      assert log == init + [last];
      PreviousIsNewest(init, digest);
      if IsOther(last, digest) {
        assert IsNewestOther(log, digest, |init|);
      } else if PreviousArtefact(log, digest).Some? {
        var k: nat :| IsNewestOther(init, digest, k)
          && init[k].data.artefact == PreviousArtefact(init, digest).value;
        OtherStaysNewest(init, last, digest, k);
      }
    }
  }

  /** The artefact a rollback or a drill goes back to. */
  function RollbackTarget(log: seq<Rec>): Option<Artefact> {
    var live := LiveArtefact(log);
    if live.None? then None else PreviousArtefact(log, live.value.digest)
  }

  // ---------------------------------------------------------------- which incidents are open

  function IncidentsOf(log: seq<Rec>): (s: seq<Incident>)
    ensures forall i :: i in s ==> exists r :: r in log && r.digest == i.digest && r.at == i.at
  {
    if log == [] then []
    else
      var r := log[|log| - 1];
      assert log == log[..|log| - 1] + [r];
      IncidentsOf(log[..|log| - 1]) +
        (if r.data.IncidentDetected? && !r.data.drill then [Incident(r.digest, r.at)] else [])
  }

  function RestoresOf(log: seq<Rec>): (s: seq<Restore>)
    ensures forall x :: x in s ==>
      exists r :: r in log && r.data.Restored? && r.at == x.at && r.data.incident == x.reference
  {
    if log == [] then []
    else
      var r := log[|log| - 1];
      assert log == log[..|log| - 1] + [r];
      RestoresOf(log[..|log| - 1]) +
        (if r.data.Restored? && !r.data.drill
         then [Restore(r.data.incident, r.at, r.digest, r.data.restoredAt)] else [])
  }

  /** `_open_incidents`: the non-drill incidents no recovery has closed, oldest first. */
  function OpenIncidents(log: seq<Rec>): seq<Incident> {
    After(IncidentsOf(log), RestoresOf(log)).open
  }

  /** Digests name one record each, and a recovery names a digest only of an earlier record. */
  ghost predicate IsWellNamed(log: seq<Rec>) {
    && (forall i, j :: 0 <= i < j < |log| ==> log[i].digest != log[j].digest)
    && (forall i, j :: 0 <= i <= j < |log| && log[i].data.Restored? ==> log[i].data.incident != Names(log[j].digest))
  }

  /** `r` comes after everything in the log, and nothing in the log knows its digest. */
  ghost predicate IsNext(log: seq<Rec>, r: Rec) {
    && (forall x :: x in log ==> x.at < r.at)
    && IsWellNamed(log + [r])
  }

  lemma SnocFunctions(log: seq<Rec>, r: Rec)
    ensures LiveArtefact(log + [r]) == if r.data.Deployed? then Some(r.data.artefact) else LiveArtefact(log)
    ensures IncidentsOf(log + [r]) == IncidentsOf(log) +
      if r.data.IncidentDetected? && !r.data.drill then [Incident(r.digest, r.at)] else []
    ensures RestoresOf(log + [r]) == RestoresOf(log) +
      if r.data.Restored? && !r.data.drill then [Restore(r.data.incident, r.at, r.digest, r.data.restoredAt)] else []
  {
  }

  lemma SnocPrevious(log: seq<Rec>, r: Rec, d: string)
    ensures PreviousArtefact(log + [r], d) ==
      if r.data.Deployed? && r.data.artefact.digest != "" && r.data.artefact.digest != d
      then Some(r.data.artefact) else PreviousArtefact(log, d)
  {
  }

  lemma {:induction false} IncidentsAreDistinct(log: seq<Rec>)
    requires IsWellNamed(log)
    ensures DistinctDigests(IncidentsOf(log))
  {
    if log != [] {
      var init := log[..|log| - 1];
      assert IsWellNamed(init) by {
        assert forall i, j :: 0 <= i <= j < |init| && init[i].data.Restored? ==>
          init[i].data.incident != Names(init[j].digest);
      }
      IncidentsAreDistinct(init);
      forall i | i in IncidentsOf(init) ensures i.digest != log[|log| - 1].digest {
        var r :| r in init && r.digest == i.digest && r.at == i.at;
      }
    }
  }

  // ---------------------------------------------------------------- what one more record does

  /** A real incident joins the open ones, last. */
  lemma IncidentOpens(log: seq<Rec>, r: Rec)
    requires IsNext(log, r) && r.data.IncidentDetected? && !r.data.drill
    ensures OpenIncidents(log + [r]) == OpenIncidents(log) + [Incident(r.digest, r.at)]
  {
    SnocFunctions(log, r);
    var i := Incident(r.digest, r.at);
    forall x | x in RestoresOf(log) ensures !Closes(x, i) {
      var y :| y in log && y.data.Restored? && y.at == x.at && y.data.incident == x.reference;
      var k :| 0 <= k < |log| && log[k] == y;
      assert (log + [r])[k].data.incident != Names((log + [r])[|log|].digest);
    }
    LaterIncidentStaysOpen(IncidentsOf(log), RestoresOf(log), i);
    assert RestoresOf(log + [r]) == RestoresOf(log);
  }

  /** A record that is neither a real incident nor a real recovery leaves the open ones alone. */
  lemma OthersLeaveOpen(log: seq<Rec>, r: Rec)
    requires !(r.data.IncidentDetected? && !r.data.drill) && !(r.data.Restored? && !r.data.drill)
    ensures OpenIncidents(log + [r]) == OpenIncidents(log)
  {
    SnocFunctions(log, r);
    assert RestoresOf(log + [r]) == RestoresOf(log);
    assert IncidentsOf(log + [r]) == IncidentsOf(log);
  }

  lemma RestoreStep(log: seq<Rec>, r: Rec)
    requires r.data.Restored? && !r.data.drill
    ensures var open := OpenIncidents(log);
      var k := Pick(open, Restore(r.data.incident, r.at, r.digest, r.data.restoredAt));
      OpenIncidents(log + [r]) == if k < |open| then Without(open, k) else open
  {
    SnocFunctions(log, r);
    var x := Restore(r.data.incident, r.at, r.digest, r.data.restoredAt);
    assert IncidentsOf(log + [r]) == IncidentsOf(log);
    assert (RestoresOf(log) + [x])[..|RestoresOf(log)|] == RestoresOf(log);
  }

  /** A recovery that names an open incident closes that one. */
  lemma NamedRestoreCloses(log: seq<Rec>, r: Rec, k: nat)
    requires IsWellNamed(log) && r.data.Restored? && !r.data.drill
    requires k < |OpenIncidents(log)| && r.data.incident == Names(OpenIncidents(log)[k].digest)
    ensures OpenIncidents(log + [r]) == Without(OpenIncidents(log), k)
  {
    hide Incidents.After, IncidentsOf, RestoresOf, IsWellNamed;
    RestoreStep(log, r);
    IncidentsAreDistinct(log);
    MatchingPartitions(IncidentsOf(log), RestoresOf(log));
    PickUnique(OpenIncidents(log), Restore(r.data.incident, r.at, r.digest, r.data.restoredAt), k);
  }

  /** A recovery that names none closes the oldest earlier incident, if one is open. */
  lemma LegacyRestoreCloses(log: seq<Rec>, r: Rec)
    requires r.data.Restored? && !r.data.drill && r.data.incident.Absent?
    requires forall x :: x in log ==> x.at < r.at
    ensures var open := OpenIncidents(log);
      OpenIncidents(log + [r]) == if open == [] then [] else Without(open, 0)
  {
    RestoreStep(log, r);
    var open := OpenIncidents(log);
    if open != [] {
      OpenAreIncidents(IncidentsOf(log), RestoresOf(log));
      assert open[0] in open;
      var y :| y in log && y.digest == open[0].digest && y.at == open[0].at;
    }
  }

  lemma {:induction false} OpenAreIncidents(incidents: seq<Incident>, restores: seq<Restore>)
    ensures forall i :: i in After(incidents, restores).open ==> i in incidents
  {
    if restores != [] {
      OpenAreIncidents(incidents, restores[..|restores| - 1]);
    }
  }
}
