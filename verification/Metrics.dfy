/** Delivery metrics over the whole history (src/rail/metrics.py). */
module Metrics {
  import opened Wrappers
  import opened Sequences
  import opened FileStore
  import opened DeployLog

  /** A failure nobody named belongs to the newest deployment of the day before it. */
  const FAILURE_WINDOW: int := 24 * 3600 * SECOND

  // ---------------------------------------------------------------- the history

  /** `r` after every record of an ordered list that is not later. */
  function InsertLast(s: seq<Rec>, r: Rec): (t: seq<Rec>)
    ensures forall x :: x in t <==> x == r || x in s
    ensures |t| == |s| + 1
    ensures IsByInstant(s) ==> IsByInstant(t)
  {
    if s == [] || s[|s| - 1].at <= r.at then s + [r]
    else
      var init, last := s[..|s| - 1], s[|s| - 1];
      assert s == init + [last];
      var t := InsertLast(init, r);
      assert forall k :: 0 <= k < |t| ==> t[k] in t;
      t + [last]
  }

  /** `sorted` by instant: records of one instant keep their order. */
  function ByInstant(s: seq<Rec>): (t: seq<Rec>)
    ensures forall x :: x in t <==> x in s
    ensures |t| == |s| && IsByInstant(t)
  {
    if s == [] then []
    else
      assert s == s[..|s| - 1] + [s[|s| - 1]];
      InsertLast(ByInstant(s[..|s| - 1]), s[|s| - 1])
  }

  lemma {:induction false} InsertKeepsAll(s: seq<Rec>, r: Rec)
    ensures multiset(InsertLast(s, r)) == multiset(s) + multiset{r}
  {
    if s != [] && s[|s| - 1].at > r.at {
      var init, last := s[..|s| - 1], s[|s| - 1];
      assert s == init + [last];
      InsertKeepsAll(init, r);
    }
  }

  /** Sorting loses no record and repeats none. */
  lemma {:induction false} SortingKeepsAll(s: seq<Rec>)
    ensures multiset(ByInstant(s)) == multiset(s)
  {
    if s != [] {
      var init, last := s[..|s| - 1], s[|s| - 1];
      assert s == init + [last];
      SortingKeepsAll(init);
      InsertKeepsAll(ByInstant(init), last);
    }
  }

  /** The records of one kind up to now. */
  function History(log: seq<Rec>, now: int, isKind: Evidence -> bool): seq<Rec> {
    ByInstant(Filter((r: Rec) => r.at <= now && isKind(r.data), log))
  }

  function TargetOf(r: Rec): Option<string> {
    if r.key.EventKey? then Some(r.key.target) else None
  }

  predicate IsRelease(r: Rec, target: Option<string>) {
    && r.data.Deployed? && r.data.mode == Release && r.data.artefact.digest != ""
    && target.Some? && TargetOf(r) == target
  }

  /** The release deployments on the target, over the whole history. */
  function Deployments(log: seq<Rec>, now: int, target: Option<string>): (s: seq<Rec>)
    ensures forall r :: r in s ==> r in log && r.at <= now && IsRelease(r, target)
    ensures forall r :: r in log && r.at <= now && IsRelease(r, target) ==> r in s
  {
    Filter(r => IsRelease(r, target), History(log, now, (e: Evidence) => e.Deployed?))
  }

  predicate IsRealIncidentData(e: Evidence) {
    e.IncidentDetected? && !e.drill
  }

  predicate IsRealRollback(e: Evidence) {
    e.RolledBack? && !e.drill
  }

  function Failures(log: seq<Rec>, now: int): seq<Rec> {
    ByInstant(History(log, now, IsRealIncidentData) + History(log, now, IsRealRollback))
  }

  predicate IsDrillIncident(e: Evidence) {
    e.IncidentDetected? && e.drill
  }

  predicate IsDrillRestore(e: Evidence) {
    e.Restored? && e.drill
  }

  function DrillIncidents(log: seq<Rec>, now: int): seq<Rec> {
    History(log, now, IsDrillIncident)
  }

  function DrillRestores(log: seq<Rec>, now: int): seq<Rec> {
    History(log, now, IsDrillRestore)
  }

  // ---------------------------------------------------------------- changes

  function ShippedDigest(r: Rec): string {
    if r.data.Deployed? then r.data.artefact.digest else ""
  }

  /** Each artefact's first deployment. */
  function Changes(deployed: seq<Rec>): (m: map<string, Rec>)
    ensures forall d :: d in m ==> m[d] in deployed && ShippedDigest(m[d]) == d
    ensures forall r :: r in deployed ==> ShippedDigest(r) in m
  {
    if deployed == [] then map[]
    else
      var init, last := deployed[..|deployed| - 1], deployed[|deployed| - 1];
      assert deployed == init + [last];
      var m := Changes(init);
      if ShippedDigest(last) in m then m else m[ShippedDigest(last) := last]
  }

  /** The deployments of the window whose artefact was deployed before. */
  function Redeployments(deployed: seq<Rec>, since: int): nat {
    if deployed == [] then 0
    else
      var init, last := deployed[..|deployed| - 1], deployed[|deployed| - 1];
      Redeployments(init, since) + (if ShippedDigest(last) in Changes(init) && last.at >= since then 1 else 0)
  }

  /** The records of the window. */
  function Within(s: seq<Rec>, since: int): seq<Rec> {
    Filter((r: Rec) => r.at >= since, s)
  }

  lemma WithinSnoc(s: seq<Rec>, r: Rec, since: int)
    ensures Within(s + [r], since) == if r.at >= since then Within(s, since) + [r] else Within(s, since)
  {
  }

  /** The changes made within the window. */
  function WindowChanges(changes: map<string, Rec>, since: int): set<string> {
    set d | d in changes && changes[d].at >= since
  }

  lemma ChangesSnoc(deployed: seq<Rec>, r: Rec)
    ensures Changes(deployed + [r]) ==
      if ShippedDigest(r) in Changes(deployed) then Changes(deployed) else Changes(deployed)[ShippedDigest(r) := r]
  {
  }

  lemma RedeploymentsSnoc(deployed: seq<Rec>, r: Rec, since: int)
    ensures Redeployments(deployed + [r], since) == Redeployments(deployed, since) +
      if ShippedDigest(r) in Changes(deployed) && r.at >= since then 1 else 0
  {
  }

  lemma OneMoreChange(changes: map<string, Rec>, d: string, r: Rec, since: int)
    requires d !in changes
    ensures |WindowChanges(changes[d := r], since)| == |WindowChanges(changes, since)| + if r.at >= since then 1 else 0
  {
    var w := WindowChanges(changes, since);
    assert WindowChanges(changes[d := r], since) == if r.at >= since then w + {d} else w;
  }

  /** Every release deployment of the window is a change or a redeployment, and never both. */
  lemma {:induction false} ChangesPlusRedeployments(deployed: seq<Rec>, since: int)
    ensures |WindowChanges(Changes(deployed), since)| + Redeployments(deployed, since)
      == |Within(deployed, since)|
  {
    hide Changes, Redeployments, WindowChanges, Within;
    if deployed == [] {
      NothingDeployed(since);
    } else {
      var init, last := deployed[..|deployed| - 1], deployed[|deployed| - 1];
      assert deployed == init + [last];
      ChangesPlusRedeployments(init, since);
      OneMoreDeployment(init, last, since);
    }
  }

  lemma NothingDeployed(since: int)
    ensures WindowChanges(Changes([]), since) == {} && Redeployments([], since) == 0 && Within([], since) == []
  {
  }

  lemma OneMoreDeployment(init: seq<Rec>, last: Rec, since: int)
    ensures |WindowChanges(Changes(init + [last]), since)| + Redeployments(init + [last], since)
      == |WindowChanges(Changes(init), since)| + Redeployments(init, since) + if last.at >= since then 1 else 0
    ensures |Within(init + [last], since)|
      == |Within(init, since)| + if last.at >= since then 1 else 0
  {
    hide Changes, Redeployments, WindowChanges, ShippedDigest, Within;
    ChangesSnoc(init, last);
    RedeploymentsSnoc(init, last, since);
    WithinSnoc(init, last, since);
    if ShippedDigest(last) !in Changes(init) {
      OneMoreChange(Changes(init), ShippedDigest(last), last, since);
    }
  }

  lemma InOrderBefore(deployed: seq<Rec>, x: Rec)
    requires IsByInstant(deployed) && x in deployed
    ensures x.at <= deployed[|deployed| - 1].at
  {
  }

  /** No deployment of an artefact is earlier than its change. */
  lemma {:induction false} ChangeIsFirst(deployed: seq<Rec>, r: Rec)
    requires IsByInstant(deployed) && r in deployed
    ensures Changes(deployed)[ShippedDigest(r)].at <= r.at
    decreases |deployed|
  {
    var init, last := deployed[..|deployed| - 1], deployed[|deployed| - 1];
    assert deployed == init + [last];
    assert IsByInstant(init);
    hide ShippedDigest, Changes, IsByInstant;
    ChangesSnoc(init, last);
    if r in init {
      ChangeIsFirst(init, r);
    } else if ShippedDigest(r) in Changes(init) {
      InOrderBefore(deployed, Changes(init)[ShippedDigest(r)]);
    }
  }

  /** The `k`-th deployment is the first of the artefact. */
  predicate IsFirstOf(deployed: seq<Rec>, k: nat, d: string) {
    k < |deployed| && ShippedDigest(deployed[k]) == d && forall j :: 0 <= j < k ==> ShippedDigest(deployed[j]) != d
  }

  /** A change is the first deployment of its artefact. */
  lemma {:induction false} ChangesMean(deployed: seq<Rec>, d: string)
    ensures d in Changes(deployed) <==> exists r :: r in deployed && ShippedDigest(r) == d
    ensures forall k: nat :: IsFirstOf(deployed, k, d) ==> d in Changes(deployed) && Changes(deployed)[d] == deployed[k]
  {
    hide ShippedDigest, Changes;
    if deployed == [] {
      NoChanges();
    } else {
      var init, last := deployed[..|deployed| - 1], deployed[|deployed| - 1];
      assert deployed == init + [last];
      ChangesMean(init, d);
      ChangesSnoc(init, last);
      forall k: nat | IsFirstOf(deployed, k, d) ensures d in Changes(deployed) && Changes(deployed)[d] == deployed[k] {
        if k < |init| {
          assert IsFirstOf(init, k, d) && init[k] == deployed[k];
        }
      }
    }
  }

  lemma NoChanges()
    ensures Changes([]) == map[]
  {
  }

  /** A change counts in the window its first deployment is in. */
  lemma WindowChangesMean(deployed: seq<Rec>, since: int, k: nat, d: string)
    requires IsFirstOf(deployed, k, d)
    ensures d in WindowChanges(Changes(deployed), since) <==> deployed[k].at >= since
  {
    ChangesMean(deployed, d);
  }

  /** The deployments of the window that are not the first of their artefact. */
  ghost function Repeats(deployed: seq<Rec>, since: int): set<nat> {
    set k: nat | k < |deployed| && deployed[k].at >= since && IsRepeat(deployed, k)
  }

  predicate IsRepeat(deployed: seq<Rec>, k: nat)
    requires k < |deployed|
  {
    exists j :: 0 <= j < k && ShippedDigest(deployed[j]) == ShippedDigest(deployed[k])
  }

  lemma {:induction false} RedeploymentsMean(deployed: seq<Rec>, since: int)
    ensures Redeployments(deployed, since) == |Repeats(deployed, since)|
  {
    hide Redeployments, Repeats, Changes, ShippedDigest;
    if deployed == [] {
      NothingRepeats(since);
    } else {
      var init, last := deployed[..|deployed| - 1], deployed[|deployed| - 1];
      assert deployed == init + [last];
      RedeploymentsMean(init, since);
      RedeploymentsSnoc(init, last, since);
      RepeatsSnoc(init, last, since);
      NoneBeyond(init, since);
      ChangesMean(init, ShippedDigest(last));
    }
  }

  lemma NothingRepeats(since: int)
    ensures Redeployments([], since) == 0 && Repeats([], since) == {}
  {
  }

  lemma NoneBeyond(init: seq<Rec>, since: int)
    ensures |init| !in Repeats(init, since)
  {
  }

  lemma RepeatsSnoc(init: seq<Rec>, last: Rec, since: int)
    ensures Repeats(init + [last], since) == Repeats(init, since) +
      if last.at >= since && exists r :: r in init && ShippedDigest(r) == ShippedDigest(last) then {|init|} else {}
  {
    var all := init + [last];
    forall k: nat | k < |init| ensures IsRepeat(all, k) <==> IsRepeat(init, k) {
      assert forall j :: 0 <= j <= k ==> all[j] == init[j];
    }
    assert all[|init|] == last && forall j :: 0 <= j < |init| ==> all[j] == init[j];
    assert IsRepeat(all, |init|) <==> exists r :: r in init && ShippedDigest(r) == ShippedDigest(last);
  }

  // ---------------------------------------------------------------- failures

  /** The newest deployment before an instant, within the failure window. */
  function BlamedByTime(deployed: seq<Rec>, at: int): string {
    if deployed == [] then ""
    else
      var last := deployed[|deployed| - 1];
      if last.at >= at then BlamedByTime(deployed[..|deployed| - 1], at)
      else if at - last.at <= FAILURE_WINDOW then ShippedDigest(last) else ""
  }

  /** The deployment in force at an instant: the last one before it. */
  ghost predicate IsInForce(deployed: seq<Rec>, k: nat, at: int) {
    k < |deployed| && deployed[k].at < at && forall j :: k < j < |deployed| ==> deployed[j].at >= at
  }

  /** An unnamed failure is blamed on the deployment in force, and on none once a day has passed. */
  lemma {:induction false} BlamedIsInForce(deployed: seq<Rec>, k: nat, at: int)
    requires IsInForce(deployed, k, at)
    ensures BlamedByTime(deployed, at) ==
      if at - deployed[k].at <= FAILURE_WINDOW then ShippedDigest(deployed[k]) else ""
    decreases |deployed|
  {
    if k < |deployed| - 1 {
      BlamedIsInForce(deployed[..|deployed| - 1], k, at);
    }
  }

  /** The artefact a failure belongs to: the one it names, or the one just deployed. */
  function Blamed(failure: Rec, deployed: seq<Rec>): string {
    var named := match failure.data
      case RolledBack(_, _, from, _, _) => from
      case IncidentDetected(_, _, d, _) => d
      case _ => "";
    if named != "" then named else BlamedByTime(deployed, failure.at)
  }

  /** Who a failure is blamed on: the artefact it names; or else the one in force, for a day; or none. */
  lemma BlameMeans(f: Rec, deployed: seq<Rec>, k: nat)
    ensures f.data.RolledBack? && f.data.fromDigest != "" ==> Blamed(f, deployed) == f.data.fromDigest
    ensures f.data.IncidentDetected? && f.data.digest != "" ==> Blamed(f, deployed) == f.data.digest
    ensures (f.data.RolledBack? && f.data.fromDigest == "") || (f.data.IncidentDetected? && f.data.digest == "") ==>
      && (IsInForce(deployed, k, f.at) ==>
            Blamed(f, deployed) ==
              if f.at - deployed[k].at <= 86_400_000_000 && deployed[k].data.Deployed?
              then deployed[k].data.artefact.digest else "")
      && ((forall r :: r in deployed ==> r.at >= f.at) ==> Blamed(f, deployed) == "")
  {
    if IsInForce(deployed, k, f.at) {
      BlamedIsInForce(deployed, k, f.at);
    }
    if forall r :: r in deployed ==> r.at >= f.at {
      NobodyIsBlamed(deployed, f.at);
    }
  }

  lemma {:induction false} NobodyIsBlamed(deployed: seq<Rec>, at: int)
    requires forall r :: r in deployed ==> r.at >= at
    ensures BlamedByTime(deployed, at) == ""
  {
    if deployed != [] {
      NobodyIsBlamed(deployed[..|deployed| - 1], at);
    }
  }

  /** Each failed artefact with its first failure. */
  function FailedBy(failures: seq<Rec>, deployed: seq<Rec>): (m: map<string, Rec>)
    ensures forall d :: d in m ==> m[d] in failures && Blamed(m[d], deployed) == d && d != ""
    ensures forall r :: r in failures && Blamed(r, deployed) != "" ==> Blamed(r, deployed) in m
  {
    if failures == [] then map[]
    else
      var init, last := failures[..|failures| - 1], failures[|failures| - 1];
      assert failures == init + [last];
      var m := FailedBy(init, deployed);
      var d := Blamed(last, deployed);
      if d == "" || d in m then m else m[d := last]
  }

  /** The `k`-th failure is the first blamed on the artefact. */
  predicate IsFirstFailure(failures: seq<Rec>, deployed: seq<Rec>, k: nat, d: string) {
    && k < |failures| && d != "" && Blamed(failures[k], deployed) == d
    && forall j :: 0 <= j < k ==> Blamed(failures[j], deployed) != d
  }

  /** An artefact failed when some failure is blamed on it, and at the first of them. */
  lemma {:induction false} FailedMean(failures: seq<Rec>, deployed: seq<Rec>, k: nat, d: string)
    requires IsFirstFailure(failures, deployed, k, d)
    ensures d in FailedBy(failures, deployed) && FailedBy(failures, deployed)[d] == failures[k]
    decreases |failures|
  {
    hide Blamed;
    var init, last := failures[..|failures| - 1], failures[|failures| - 1];
    assert failures == init + [last];
    if k < |init| {
      assert IsFirstFailure(init, deployed, k, d);
      FailedMean(init, deployed, k, d);
    }
  }

  /** Artefacts that failed in the window and never went live. */
  function Candidates(failed: map<string, Rec>, changes: map<string, Rec>, since: int): set<string> {
    set d | d in failed && d !in changes && failed[d].at >= since
  }

  function FailedChanges(failed: map<string, Rec>, changes: map<string, Rec>, since: int): nat {
    |WindowChanges(changes, since) * failed.Keys| + |Candidates(failed, changes, since)|
  }

  function Attempts(failed: map<string, Rec>, changes: map<string, Rec>, since: int): nat {
    |WindowChanges(changes, since)| + |Candidates(failed, changes, since)|
  }

  /** The failure rate lies between 0 and 1, and what failed was attempted. */
  lemma FailedWereAttempted(failed: map<string, Rec>, changes: map<string, Rec>, since: int)
    ensures FailedChanges(failed, changes, since) <= Attempts(failed, changes, since)
    ensures Attempts(failed, changes, since)
      == |set d | d in WindowChanges(changes, since) + Candidates(failed, changes, since)|
  {
    var w, c := WindowChanges(changes, since), Candidates(failed, changes, since);
    assert w == w * failed.Keys + (w - failed.Keys);
    assert w !! c;
    assert (set d | d in w + c) == w + c;
  }

  // ---------------------------------------------------------------- what later records change

  /** A record from after the publication changes nothing of it. */
  lemma FutureIsUnseen(log: seq<Rec>, r: Rec, now: int, target: Option<string>)
    requires r.at > now
    ensures Deployments(log + [r], now, target) == Deployments(log, now, target)
    ensures Failures(log + [r], now) == Failures(log, now)
    ensures DrillIncidents(log + [r], now) == DrillIncidents(log, now)
    ensures DrillRestores(log + [r], now) == DrillRestores(log, now)
  {
    FutureHistory(log, r, now, IsDrillIncident);
    FutureHistory(log, r, now, IsDrillRestore);
    FutureHistory(log, r, now, (e: Evidence) => e.Deployed?);
    FutureHistory(log, r, now, IsRealIncidentData);
    FutureHistory(log, r, now, IsRealRollback);
  }

  lemma FutureHistory(log: seq<Rec>, r: Rec, now: int, isKind: Evidence -> bool)
    requires r.at > now
    ensures History(log + [r], now, isKind) == History(log, now, isKind)
  {
    FilterSnoc((x: Rec) => x.at <= now && isKind(x.data), log, r);
  }

  lemma HistorySnoc(log: seq<Rec>, r: Rec, now: int, isKind: Evidence -> bool)
    requires r.at <= now && forall x :: x in log ==> x.at < r.at
    ensures History(log + [r], now, isKind) == History(log, now, isKind) + (if isKind(r.data) then [r] else [])
  {
    hide ByInstant;
    var p := (x: Rec) => x.at <= now && isKind(x.data);
    FilterSnoc(p, log, r);
    if isKind(r.data) {
      LaterSortsLast(Filter(p, log), r);
    }
  }

  lemma LaterSortsLast(s: seq<Rec>, r: Rec)
    requires forall x :: x in s ==> x.at < r.at
    ensures ByInstant(s + [r]) == ByInstant(s) + [r]
  {
    hide ByInstant, InsertLast;
    SortedSnoc(s, r);
    LatestIsInsertedLast(ByInstant(s), r);
  }

  // ---------------------------------------------------------------- what counts, field by field

  /** The deployments that count are the releases on the target that name a digest, up to now. */
  lemma DeploymentsMean(log: seq<Rec>, now: int, target: Option<string>, r: Rec)
    ensures r in Deployments(log, now, target) <==>
      && r in log && r.at <= now
      && r.data.Deployed? && r.data.mode == Release && r.data.artefact.digest != ""
      && r.key.EventKey? && target == Some(r.key.target)
  {
  }

  /** The failures that count are incidents and rollbacks outside a drill, up to now. */
  lemma FailuresMean(log: seq<Rec>, now: int, r: Rec)
    ensures r in Failures(log, now) <==>
      && r in log && r.at <= now
      && ((r.data.IncidentDetected? && !r.data.drill) || (r.data.RolledBack? && !r.data.drill))
  {
    hide History, ByInstant;
    HistoryMeans(log, now, IsRealIncidentData, r);
    HistoryMeans(log, now, IsRealRollback, r);
    SortedMeans(History(log, now, IsRealIncidentData) + History(log, now, IsRealRollback), r);
  }

  lemma SortedMeans(s: seq<Rec>, r: Rec)
    ensures r in ByInstant(s) <==> r in s
  {
  }

  lemma HistoryMeans(log: seq<Rec>, now: int, isKind: Evidence -> bool, r: Rec)
    ensures r in History(log, now, isKind) <==> r in log && r.at <= now && isKind(r.data)
  {
  }

  /** The newest record, and not a release on the target that names a digest. */
  predicate IsNoRelease(log: seq<Rec>, r: Rec, target: Option<string>) {
    && (forall x :: x in log ==> x.at < r.at)
    && !(r.data.Deployed? && r.data.mode == Release && r.data.artefact.digest != "" && r.key.EventKey?
         && target == Some(r.key.target))
  }

  /** Such a record is no deployment: it changes no count of changes or redeployments. */
  lemma OnlyReleasesCount(log: seq<Rec>, r: Rec, now: int, target: Option<string>)
    requires IsNoRelease(log, r, target)
    ensures Deployments(log + [r], now, target) == Deployments(log, now, target)
  {
    var isKind := (e: Evidence) => e.Deployed?;
    if r.at <= now {
      HistorySnoc(log, r, now, isKind);
      FilterSnoc(x => IsRelease(x, target), History(log, now, isKind), r);
      assert History(log, now, isKind) + [] == History(log, now, isKind);
    } else {
      FutureHistory(log, r, now, isKind);
    }
  }

  /** The drills of a history are its simulated incidents, and their recoveries the simulated ones. */
  lemma DrillsMean(log: seq<Rec>, now: int, since: int, r: Rec)
    ensures r in Within(DrillIncidents(log, now), since) <==>
      r in log && since <= r.at <= now && r.data.IncidentDetected? && r.data.drill
    ensures r in Within(DrillRestores(log, now), since) <==>
      r in log && since <= r.at <= now && r.data.Restored? && r.data.drill
  {
    hide History;
    HistoryMeans(log, now, IsDrillIncident, r);
    HistoryMeans(log, now, IsDrillRestore, r);
  }

  /** A newest record that is no incident and no rollback outside a drill is no failure. */
  lemma OnlyRealFailuresCount(log: seq<Rec>, r: Rec, now: int)
    requires forall x :: x in log ==> x.at < r.at
    requires !(r.data.IncidentDetected? && !r.data.drill) && !(r.data.RolledBack? && !r.data.drill)
    ensures Failures(log + [r], now) == Failures(log, now)
  {
    hide History, ByInstant;
    SameHistory(log, r, now, IsRealIncidentData);
    SameHistory(log, r, now, IsRealRollback);
  }

  lemma SameHistory(log: seq<Rec>, r: Rec, now: int, isKind: Evidence -> bool)
    requires !isKind(r.data)
    ensures History(log + [r], now, isKind) == History(log, now, isKind)
  {
    FilterSnoc((x: Rec) => x.at <= now && isKind(x.data), log, r);
  }

  /** The four records of a drill that works, in time. */
  predicate IsDrill(rs: seq<Rec>) {
    && |rs| == 4 && rs[0].at < rs[1].at < rs[2].at < rs[3].at
    && rs[0].data.IncidentDetected? && rs[0].data.drill
    && rs[1].data.RolledBack? && rs[1].data.drill
    && rs[2].data.Restored? && rs[2].data.drill
    && rs[3].data.Deployed? && rs[3].data.mode == Drill
  }

  lemma DrillStep(log: seq<Rec>, r: Rec, now: int, target: Option<string>)
    requires IsNoRelease(log, r, target)
    requires !(r.data.IncidentDetected? && !r.data.drill) && !(r.data.RolledBack? && !r.data.drill)
    ensures Deployments(log + [r], now, target) == Deployments(log, now, target)
    ensures Failures(log + [r], now) == Failures(log, now)
  {
    OnlyReleasesCount(log, r, now, target);
    OnlyRealFailuresCount(log, r, now);
  }

  /** A drill counts as a drill only: what deployments, changes and failures are counted from is as
      it was. */
  lemma DrillCountsAsDrill(log: seq<Rec>, rs: seq<Rec>, now: int, target: Option<string>)
    requires IsDrill(rs) && forall x :: x in log ==> x.at < rs[0].at
    ensures Deployments(log + rs, now, target) == Deployments(log, now, target)
    ensures Failures(log + rs, now) == Failures(log, now)
    ensures rs[3].at <= now ==>
      && DrillIncidents(log + rs, now) == DrillIncidents(log, now) + [rs[0]]
      && DrillRestores(log + rs, now) == DrillRestores(log, now) + [rs[2]]
  {
    hide Deployments, Failures, DrillIncidents, DrillRestores;
    var a, b, c := log + [rs[0]], log + [rs[0]] + [rs[1]], log + [rs[0]] + [rs[1]] + [rs[2]];
    assert log + rs == c + [rs[3]];
    DrillStep(log, rs[0], now, target);
    DrillStep(a, rs[1], now, target);
    DrillStep(b, rs[2], now, target);
    DrillStep(c, rs[3], now, target);
    if rs[3].at <= now {
      DrillJoins(log, rs, now);
    }
  }

  lemma DrillJoins(log: seq<Rec>, rs: seq<Rec>, now: int)
    requires IsDrill(rs) && rs[3].at <= now && forall x :: x in log ==> x.at < rs[0].at
    ensures DrillIncidents(log + rs, now) == DrillIncidents(log, now) + [rs[0]]
    ensures DrillRestores(log + rs, now) == DrillRestores(log, now) + [rs[2]]
  {
    hide History;
    var a, b, c := log + [rs[0]], log + [rs[0]] + [rs[1]], log + [rs[0]] + [rs[1]] + [rs[2]];
    assert log + rs == c + [rs[3]];
    HistorySnoc(log, rs[0], now, IsDrillIncident);
    SameHistory(a, rs[1], now, IsDrillIncident);
    SameHistory(b, rs[2], now, IsDrillIncident);
    SameHistory(c, rs[3], now, IsDrillIncident);
    SameHistory(log, rs[0], now, IsDrillRestore);
    SameHistory(a, rs[1], now, IsDrillRestore);
    HistorySnoc(b, rs[2], now, IsDrillRestore);
    SameHistory(c, rs[3], now, IsDrillRestore);
  }

  lemma InsertBeforeLast(s: seq<Rec>, r: Rec, x: Rec)
    requires x.at < r.at
    ensures InsertLast(s + [r], x) == InsertLast(s, x) + [r]
  {
  }

  lemma SortedSnoc(s: seq<Rec>, x: Rec)
    ensures ByInstant(s + [x]) == InsertLast(ByInstant(s), x)
  {
  }

  lemma LatestIsInsertedLast(s: seq<Rec>, r: Rec)
    requires forall x :: x in s ==> x.at < r.at
    ensures InsertLast(s, r) == s + [r]
  {
  }

  lemma {:induction false} LatestSortsLast(a: seq<Rec>, r: Rec, b: seq<Rec>)
    requires (forall x :: x in a ==> x.at < r.at) && (forall x :: x in b ==> x.at < r.at)
    ensures ByInstant(a + [r] + b) == ByInstant(a + b) + [r]
    decreases |b|
  {
    hide InsertLast, IsByInstant;
    if b == [] {
      assert a + [r] + b == a + [r] && a + b == a;
      SortedSnoc(a, r);
      LatestIsInsertedLast(ByInstant(a), r);
    } else {
      var init, last := b[..|b| - 1], b[|b| - 1];
      assert b == init + [last];
      assert a + [r] + b == (a + [r] + init) + [last];
      assert a + b == (a + init) + [last];
      SortedSnoc(a + [r] + init, last);
      SortedSnoc(a + init, last);
      LatestSortsLast(a, r, init);
      InsertBeforeLast(ByInstant(a + init), r, last);
    }
  }

  lemma HistoryIsEarlier(log: seq<Rec>, now: int, isKind: Evidence -> bool, t: int)
    requires forall x :: x in log ==> x.at < t
    ensures forall x :: x in History(log, now, isKind) ==> x.at < t
  {
  }

  /** A later failure is the last one. */
  lemma FailureIsLast(log: seq<Rec>, r: Rec, now: int)
    requires r.at <= now && forall x :: x in log ==> x.at < r.at
    requires IsRealIncidentData(r.data) || IsRealRollback(r.data)
    ensures Failures(log + [r], now) == Failures(log, now) + [r]
  {
    hide History, ByInstant;
    HistorySnoc(log, r, now, IsRealIncidentData);
    HistorySnoc(log, r, now, IsRealRollback);
    HistoryIsEarlier(log, now, IsRealIncidentData, r.at);
    HistoryIsEarlier(log, now, IsRealRollback, r.at);
    var a, b := History(log, now, IsRealIncidentData), History(log, now, IsRealRollback);
    if IsRealIncidentData(r.data) {
      LatestSortsLast(a, r, b);
      assert b + [] == b;
    } else {
      LatestSortsLast(a + b, r, []);
      assert a + b + [r] + [] == a + (b + [r]) && a + b + [] == a + b && a + [] == a;
    }
  }

  lemma FailedBySnoc(failures: seq<Rec>, deployed: seq<Rec>, r: Rec)
    ensures var before, d := FailedBy(failures, deployed), Blamed(r, deployed);
      FailedBy(failures + [r], deployed) == if d == "" || d in before then before else before[d := r]
  {
  }

  lemma OneMoreFailed(failed: map<string, Rec>, changes: map<string, Rec>, d: string, r: Rec, since: int)
    requires d in changes && d !in failed
    ensures Attempts(failed[d := r], changes, since) == Attempts(failed, changes, since)
    ensures FailedChanges(failed[d := r], changes, since) == FailedChanges(failed, changes, since)
      + if changes[d].at >= since then 1 else 0
  {
    hide Candidates, WindowChanges;
    SameCandidates(failed, changes, d, r, since);
    OneMoreIn(WindowChanges(changes, since), failed.Keys, d);
    OneMoreKey(failed, d, r);
    InTheWindow(changes, d, since);
  }

  lemma OneMoreKey(failed: map<string, Rec>, d: string, r: Rec)
    ensures failed[d := r].Keys == failed.Keys + {d}
  {
  }

  lemma InTheWindow(changes: map<string, Rec>, d: string, since: int)
    requires d in changes
    ensures d in WindowChanges(changes, since) <==> changes[d].at >= since
  {
  }

  lemma SameCandidates(failed: map<string, Rec>, changes: map<string, Rec>, d: string, r: Rec, since: int)
    requires d in changes
    ensures Candidates(failed[d := r], changes, since) == Candidates(failed, changes, since)
  {
  }

  lemma OneMoreIn(w: set<string>, keys: set<string>, d: string)
    requires d !in keys
    ensures |w * (keys + {d})| == |w * keys| + if d in w then 1 else 0
  {
    assert w * (keys + {d}) == if d in w then w * keys + {d} else w * keys;
  }

  /**
   * However late it comes, a failure of a deployed artefact creates no attempt: it marks the
   * change, in the window the change was made in.
   */
  lemma LateFailureStaysWithItsChange(failures: seq<Rec>, deployed: seq<Rec>, r: Rec, since: int)
    requires Blamed(r, deployed) in Changes(deployed) && Blamed(r, deployed) != ""
    ensures var changes := Changes(deployed);
      var before, after := FailedBy(failures, deployed), FailedBy(failures + [r], deployed);
      var d := Blamed(r, deployed);
      && Attempts(after, changes, since) == Attempts(before, changes, since)
      && FailedChanges(after, changes, since) == FailedChanges(before, changes, since)
         + (if changes[d].at >= since && d !in before then 1 else 0)
  {
    hide Changes, Blamed, FailedBy, FailedChanges, Attempts;
    FailedBySnoc(failures, deployed, r);
    if Blamed(r, deployed) !in FailedBy(failures, deployed) {
      OneMoreFailed(FailedBy(failures, deployed), Changes(deployed), Blamed(r, deployed), r, since);
    }
  }

  lemma NothingFailed(changes: map<string, Rec>, since: int)
    ensures FailedChanges(map[], changes, since) == 0
    ensures Attempts(map[], changes, since) == |WindowChanges(changes, since)|
  {
    var none: map<string, Rec> := map[];
    assert WindowChanges(changes, since) * none.Keys == {};
    assert Candidates(none, changes, since) == {};
  }

  lemma OneMoreCandidate(failed: map<string, Rec>, changes: map<string, Rec>, d: string, r: Rec, since: int)
    requires d !in changes && d !in failed
    ensures Attempts(failed[d := r], changes, since) == Attempts(failed, changes, since)
      + if r.at >= since then 1 else 0
    ensures FailedChanges(failed[d := r], changes, since) == FailedChanges(failed, changes, since)
      + if r.at >= since then 1 else 0
  {
    var before, after := Candidates(failed, changes, since), Candidates(failed[d := r], changes, since);
    assert after == if r.at >= since then before + {d} else before;
    assert d !in before;
    OneMoreKey(failed, d, r);
    OneMoreIn(WindowChanges(changes, since), failed.Keys, d);
  }

  /** The first failure of an artefact that never went live is a failed attempt, in the window the
      failure is in. */
  lemma FailureWithoutChange(failures: seq<Rec>, deployed: seq<Rec>, r: Rec, since: int)
    requires Blamed(r, deployed) != "" && Blamed(r, deployed) !in FailedBy(failures, deployed)
    requires forall x :: x in deployed ==> ShippedDigest(x) != Blamed(r, deployed)
    ensures var changes := Changes(deployed);
      var before, after := FailedBy(failures, deployed), FailedBy(failures + [r], deployed);
      && Attempts(after, changes, since) == Attempts(before, changes, since) + (if r.at >= since then 1 else 0)
      && FailedChanges(after, changes, since) == FailedChanges(before, changes, since)
         + (if r.at >= since then 1 else 0)
  {
    var d := Blamed(r, deployed);
    ChangesMean(deployed, d);
    hide Changes, Blamed, FailedBy, FailedChanges, Attempts, ShippedDigest;
    FailedBySnoc(failures, deployed, r);
    OneMoreCandidate(FailedBy(failures, deployed), Changes(deployed), d, r, since);
  }

  lemma {:induction false} ChangesSkip(a: seq<Rec>, r: Rec, b: seq<Rec>)
    requires ShippedDigest(r) in Changes(a)
    ensures Changes(a + [r] + b) == Changes(a + b)
    decreases |b|
  {
    hide ShippedDigest, Changes;
    if b == [] {
      assert a + [r] + b == a + [r] && a + b == a;
      ChangesSnoc(a, r);
    } else {
      var init, last := b[..|b| - 1], b[|b| - 1];
      assert a + [r] + b == (a + [r] + init) + [last] && a + b == (a + init) + [last];
      ChangesSkip(a, r, init);
      ChangesSnoc(a + [r] + init, last);
      ChangesSnoc(a + init, last);
    }
  }

  /** Blame by time falls on a change, or on nothing. */
  lemma {:induction false} BlameIsOnAChange(deployed: seq<Rec>, at: int)
    ensures BlamedByTime(deployed, at) == "" || BlamedByTime(deployed, at) in Changes(deployed)
  {
    hide ShippedDigest, Changes;
    if deployed != [] {
      var init, last := deployed[..|deployed| - 1], deployed[|deployed| - 1];
      assert deployed == init + [last];
      BlameIsOnAChange(init, at);
      ChangesSnoc(init, last);
    }
  }

  lemma SameBlameOutside(f: Rec, one: seq<Rec>, other: seq<Rec>)
    requires Changes(one) == Changes(other)
    ensures Blamed(f, one) == Blamed(f, other) ||
      forall d :: d == Blamed(f, one) || d == Blamed(f, other) ==> d == "" || d in Changes(one)
  {
    hide Changes, BlamedByTime;
    BlameIsOnAChange(one, f.at);
    BlameIsOnAChange(other, f.at);
  }

  /** The failed artefacts that never went live, with their first failures. */
  ghost predicate FailAlike(one: map<string, Rec>, other: map<string, Rec>, changes: map<string, Rec>) {
    forall d :: d !in changes ==> (d in one <==> d in other) && (d in one ==> one[d] == other[d])
  }

  /** One more failure: the first of an artefact is the one that counts. */
  function OneFailure(m: map<string, Rec>, d: string, r: Rec): map<string, Rec> {
    if d == "" || d in m then m else m[d := r]
  }

  lemma FailAlikeNext(one: map<string, Rec>, other: map<string, Rec>, changes: map<string, Rec>,
                      d: string, e: string, r: Rec)
    requires FailAlike(one, other, changes)
    requires d == e || ((d == "" || d in changes) && (e == "" || e in changes))
    ensures FailAlike(OneFailure(one, d, r), OneFailure(other, e, r), changes)
  {
  }

  lemma {:induction false} FailedOutside(failures: seq<Rec>, one: seq<Rec>, other: seq<Rec>)
    requires Changes(one) == Changes(other)
    ensures FailAlike(FailedBy(failures, one), FailedBy(failures, other), Changes(one))
  {
    hide Changes, Blamed, FailAlike, FailedBy;
    if failures == [] {
      NoneFailed(one, other);
    } else {
      var init, last := failures[..|failures| - 1], failures[|failures| - 1];
      assert failures == init + [last];
      FailedOutside(init, one, other);
      SameBlameOutside(last, one, other);
      FailedBySnoc(init, one, last);
      FailedBySnoc(init, other, last);
      FailAlikeNext(FailedBy(init, one), FailedBy(init, other), Changes(one),
                    Blamed(last, one), Blamed(last, other), last);
    }
  }

  lemma NoneFailed(one: seq<Rec>, other: seq<Rec>)
    ensures FailAlike(FailedBy([], one), FailedBy([], other), Changes(one))
  {
  }

  lemma SameAttempts(one: map<string, Rec>, other: map<string, Rec>, changes: map<string, Rec>, since: int)
    requires FailAlike(one, other, changes)
    ensures Attempts(one, changes, since) == Attempts(other, changes, since)
  {
    assert Candidates(one, changes, since) == Candidates(other, changes, since);
  }

  /**
   * Wherever it comes in the history, one more deployment of an artefact creates no attempt. It
   * may take over the blame of failures that name no artefact, but only from one change to another.
   */
  lemma RedeploymentIsNoAttempt(failures: seq<Rec>, a: seq<Rec>, r: Rec, b: seq<Rec>, since: int)
    requires ShippedDigest(r) in Changes(a)
    ensures var deployed, more := a + b, a + [r] + b;
      Attempts(FailedBy(failures, more), Changes(more), since) ==
        Attempts(FailedBy(failures, deployed), Changes(deployed), since)
  {
    hide Changes, FailedBy, Attempts, FailAlike;
    ChangesSkip(a, r, b);
    FailedOutside(failures, a + [r] + b, a + b);
    SameAttempts(FailedBy(failures, a + [r] + b), FailedBy(failures, a + b), Changes(a + b), since);
  }

  // ---------------------------------------------------------------- drills

  /** The first recovery after a drill and before the next one. */
  function DrillRestore(drills: seq<Rec>, restores: seq<Rec>, k: nat): (r: Option<Rec>)
    requires k < |drills|
    ensures r.Some? ==> r.value in restores && drills[k].at < r.value.at
    ensures r.Some? && k + 1 < |drills| ==> r.value.at < drills[k + 1].at
  {
    var after := Filter((x: Rec) =>
      x.at > drills[k].at && (k + 1 < |drills| ==> x.at < drills[k + 1].at), restores);
    if after == [] then None else assert after[0] in after; Some(after[0])
  }

  /** A recovery serves at most one drill, and a failed drill never borrows a later one's. */
  lemma DrillRestoresAreDistinct(drills: seq<Rec>, restores: seq<Rec>, j: nat, k: nat)
    requires IsByInstant(drills) && j < k < |drills|
    requires DrillRestore(drills, restores, j).Some? && DrillRestore(drills, restores, k).Some?
    ensures DrillRestore(drills, restores, j).value.at < drills[k].at
      < DrillRestore(drills, restores, k).value.at
  {
  }

  // ---------------------------------------------------------------- the window

  /** The recovery is the first after the drill, and comes before the next drill. */
  predicate IsFirstAfter(drills: seq<Rec>, restores: seq<Rec>, n: nat, m: nat)
    requires n < |drills|
  {
    && m < |restores| && ComesInTurn(drills, n, restores[m])
    && forall j :: 0 <= j < m ==> !ComesInTurn(drills, n, restores[j])
  }

  predicate ComesInTurn(drills: seq<Rec>, n: nat, r: Rec)
    requires n < |drills|
  {
    drills[n].at < r.at && (n == |drills| - 1 || r.at < drills[n + 1].at)
  }

  lemma {:induction false} FilterFirst(p: Rec -> bool, s: seq<Rec>, m: nat)
    requires m < |s| && p(s[m]) && forall j :: 0 <= j < m ==> !p(s[j])
    ensures Filter(p, s) != [] && Filter(p, s)[0] == s[m]
    decreases |s|
  {
    var init, last := s[..|s| - 1], s[|s| - 1];
    assert s == init + [last];
    if m < |init| {
      FilterFirst(p, init, m);
    } else {
      HasMember(Filter(p, init));
    }
  }

  /** What serves a drill is the first recovery between it and the next one. */
  lemma DrillRestoreMeans(drills: seq<Rec>, restores: seq<Rec>, n: nat, m: nat)
    requires n < |drills|
    ensures IsFirstAfter(drills, restores, n, m) ==> DrillRestore(drills, restores, n) == Some(restores[m])
    ensures DrillRestore(drills, restores, n).None? <==> forall r :: r in restores ==> !ComesInTurn(drills, n, r)
  {
    var p := (x: Rec) => x.at > drills[n].at && (n + 1 < |drills| ==> x.at < drills[n + 1].at);
    if IsFirstAfter(drills, restores, n, m) {
      FilterFirst(p, restores, m);
    }
    HasMember(Filter(p, restores));
  }

  /** Each drill's recovery comes after it and before every later one's: none serves two. */
  ghost predicate AreServedInTurn(pairs: seq<(Rec, Rec)>) {
    && (forall k :: 0 <= k < |pairs| ==> pairs[k].0.at < pairs[k].1.at)
    && (forall j, k :: 0 <= j < k < |pairs| ==> pairs[j].1.at < pairs[k].1.at)
  }

  /** The first `k` drills that have a recovery, each with it. */
  function ServedUpTo(drills: seq<Rec>, restores: seq<Rec>, k: nat): seq<(Rec, Rec)>
    requires k <= |drills|
  {
    if k == 0 then []
    else
      var restore := DrillRestore(drills, restores, k - 1);
      ServedUpTo(drills, restores, k - 1) + if restore.Some? then [(drills[k - 1], restore.value)] else []
  }

  function Served(drills: seq<Rec>, restores: seq<Rec>): seq<(Rec, Rec)> {
    ServedUpTo(drills, restores, |drills|)
  }

  predicate EndBy(pairs: seq<(Rec, Rec)>, t: int) {
    forall k :: 0 <= k < |pairs| ==> pairs[k].1.at <= t
  }

  lemma ServedNext(pairs: seq<(Rec, Rec)>, drill: Rec, restore: Rec)
    requires AreServedInTurn(pairs) && EndBy(pairs, drill.at) && drill.at < restore.at
    ensures AreServedInTurn(pairs + [(drill, restore)]) && EndBy(pairs + [(drill, restore)], restore.at)
  {
  }

  /** The pair of the `n`-th drill and its recovery. */
  predicate IsServed(drills: seq<Rec>, restores: seq<Rec>, n: nat, p: (Rec, Rec))
    requires n < |drills|
  {
    DrillRestore(drills, restores, n) == Some(p.1) && p.0 == drills[n]
  }

  /** The pairs are the drills with a recovery before the next drill, and no others. */
  lemma {:induction false} ServedMeans(drills: seq<Rec>, restores: seq<Rec>, k: nat, p: (Rec, Rec))
    requires k <= |drills|
    ensures p in ServedUpTo(drills, restores, k) <==> exists n :: 0 <= n < k && IsServed(drills, restores, n, p)
  {
    hide DrillRestore;
    if k > 0 {
      ServedMeans(drills, restores, k - 1, p);
      var pairs, restore := ServedUpTo(drills, restores, k - 1), DrillRestore(drills, restores, k - 1);
      var more := if restore.Some? then [(drills[k - 1], restore.value)] else [];
      assert p in pairs + more <==> p in pairs || p in more;
      assert p in more <==> IsServed(drills, restores, k - 1, p);
    }
  }

  lemma {:induction false} ServedUpToInTurn(drills: seq<Rec>, restores: seq<Rec>, k: nat)
    requires IsByInstant(drills) && k <= |drills|
    ensures AreServedInTurn(ServedUpTo(drills, restores, k))
    ensures k < |drills| ==> EndBy(ServedUpTo(drills, restores, k), drills[k].at)
  {
    hide AreServedInTurn, EndBy;
    if k == 0 {
      NoneServed();
    } else {
      ServedUpToInTurn(drills, restores, k - 1);
      var pairs, restore := ServedUpTo(drills, restores, k - 1), DrillRestore(drills, restores, k - 1);
      if restore.Some? {
        ServedNext(pairs, drills[k - 1], restore.value);
        if k < |drills| {
          EndLater(pairs + [(drills[k - 1], restore.value)], restore.value.at, drills[k].at);
        }
      } else if k < |drills| {
        EndLater(pairs, drills[k - 1].at, drills[k].at);
        assert pairs + [] == pairs;
      }
    }
  }

  lemma NoneServed()
    ensures AreServedInTurn([]) && forall t :: EndBy([], t)
  {
  }

  lemma EndLater(pairs: seq<(Rec, Rec)>, t: int, later: int)
    requires EndBy(pairs, t) && t <= later
    ensures EndBy(pairs, later)
  {
  }

  /** Each drill is served by its own recovery, before the next drill's. */
  lemma ServedInTurn(drills: seq<Rec>, restores: seq<Rec>)
    requires IsByInstant(drills)
    ensures AreServedInTurn(Served(drills, restores))
  {
    ServedUpToInTurn(drills, restores, |drills|);
  }

  datatype Window = Window(changes: nat, redeployments: nat, failed: nat, attempts: nat, drills: seq<(Rec, Rec)>)

  lemma {:induction false} FilterKeepsOrder(p: Rec -> bool, s: seq<Rec>)
    requires IsByInstant(s)
    ensures IsByInstant(Filter(p, s))
  {
    if s != [] {
      FilterKeepsOrder(p, s[..|s| - 1]);
      var f := Filter(p, s[..|s| - 1]);
      forall k | 0 <= k < |f| ensures f[k].at <= s[|s| - 1].at {
        assert f[k] in f;
      }
    }
  }

  /** `delivery_window_v2`, its counts. */
  method DeliveryWindow(log: seq<Rec>, now: int, since: int, target: Option<string>) returns (w: Window)
    ensures var deployed := Deployments(log, now, target);
      var failed := FailedBy(Failures(log, now), deployed);
      && w.changes == |WindowChanges(Changes(deployed), since)|
      && w.redeployments == Redeployments(deployed, since)
      && w.changes + w.redeployments == |Within(deployed, since)|
      && w.failed == FailedChanges(failed, Changes(deployed), since)
      && w.attempts == Attempts(failed, Changes(deployed), since)
      && w.failed <= w.attempts
    ensures w.drills == Served(Within(DrillIncidents(log, now), since), Within(DrillRestores(log, now), since))
    ensures AreServedInTurn(w.drills)
  {
    hide Deployments, Failures, Changes, Redeployments, FailedBy, FailedChanges, Attempts, WindowChanges, History,
      Served, AreServedInTurn;
    var deployed := Deployments(log, now, target);
    var changes, redeployments := CountChanges(deployed, since);
    var failed := AttributeFailures(Failures(log, now), deployed);
    ChangesPlusRedeployments(deployed, since);
    FailedWereAttempted(failed, changes, since);
    var incidents, restores := DrillIncidents(log, now), DrillRestores(log, now);
    HistoryIsOrdered(log, now, IsDrillIncident);
    FilterKeepsOrder((r: Rec) => r.at >= since, incidents);
    var drills := MatchDrills(Within(incidents, since), Within(restores, since));
    ServedInTurn(Within(incidents, since), Within(restores, since));
    return Window(|WindowChanges(changes, since)|, redeployments,
                  FailedChanges(failed, changes, since), Attempts(failed, changes, since), drills);
  }

  lemma HistoryIsOrdered(log: seq<Rec>, now: int, isKind: Evidence -> bool)
    ensures IsByInstant(History(log, now, isKind))
  {
  }

  method CountChanges(deployed: seq<Rec>, since: int) returns (changes: map<string, Rec>, redeployments: nat)
    ensures changes == Changes(deployed) && redeployments == Redeployments(deployed, since)
  {
    changes, redeployments := map[], 0;
    for k := 0 to |deployed|
      invariant changes == Changes(deployed[..k]) && redeployments == Redeployments(deployed[..k], since)
    {
      assert deployed[..k + 1][..k] == deployed[..k];
      var digest := ShippedDigest(deployed[k]);
      if digest !in changes {
        changes := changes[digest := deployed[k]];
      } else if deployed[k].at >= since {
        redeployments := redeployments + 1;
      }
    }
    assert deployed[..|deployed|] == deployed;
  }

  method AttributeFailures(failures: seq<Rec>, deployed: seq<Rec>) returns (failed: map<string, Rec>)
    ensures failed == FailedBy(failures, deployed)
  {
    failed := map[];
    for k := 0 to |failures|
      invariant failed == FailedBy(failures[..k], deployed)
    {
      assert failures[..k + 1][..k] == failures[..k];
      var digest := Blamed(failures[k], deployed);
      if digest != "" && digest !in failed {
        failed := failed[digest := failures[k]];
      }
    }
    assert failures[..|failures|] == failures;
  }

  /** Each drill of the window with its recovery. */
  method MatchDrills(drills: seq<Rec>, restores: seq<Rec>) returns (pairs: seq<(Rec, Rec)>)
    ensures pairs == Served(drills, restores)
  {
    hide DrillRestore;
    pairs := [];
    for k := 0 to |drills|
      invariant pairs == ServedUpTo(drills, restores, k)
    {
      var restore := DrillRestore(drills, restores, k);
      if restore.Some? {
        pairs := pairs + [(drills[k], restore.value)];
      }
    }
  }
}
