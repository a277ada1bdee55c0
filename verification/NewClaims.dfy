/** What becomes of a new claim of a judge (src/rail/reviewer/service.py). */
module NewClaims {
  import opened Wrappers
  import opened Findings
  import opened Carry
  import opened Rounds
  import opened Admission
  import opened Service
  import opened PassShape
  import opened Blockers
  import opened Runs

  /** A merged finding that repeats no judged finding on record. */
  predicate IsNewClaim(s: LoopState, f: Finding) {
    f.id.None? || f.id.value !in Ids(Earlier(s))
  }

  /** The class a claim is owed. On code severity alone decides; elsewhere a judge may also hand the
      claim on, or insist that it blocks. */
  predicate IsOwed(f: Finding, artifact: Artifact, c: Class) {
    && (c == CarryForward <==> artifact != Code && f.klass == Some(CarryForward))
    && (c == Blocker <==>
          if artifact == Code || f.klass == None || f.klass == Some(Note) then f.severity == Blocking
          else f.klass == Some(Blocker))
  }

  /** The class it is recorded under: a claim owed a blocker is demoted where it comes too late, and
      a closure on the judged head records notes only. */
  predicate IsRecordedAs(q: Request, s: LoopState, f: Finding, g: Finding) {
    var step := NextStep(s);
    if step == Closing && IsOnJudgedHead(q, s) then g.klass == Some(Note)
    else
      var late := s.hasFindingsList && (step == JudgedRound(3) || step == Closing) && !IsOnAChange(q, g);
      exists c :: IsOwed(f, q.artifact, c) && g.klass ==
        Some(if c == Blocker && late then if q.artifact == SpecPlan then CarryForward else Note else c)
  }

  /** The claim with its place and class settled. */
  function Settled(f: Finding, artifact: Artifact): Finding {
    EnforceClass(Relocated(f), artifact)
  }

  lemma NewIsUnknown(q: Request, s: LoopState, m: Merged, f: Finding)
    requires f in m.findings && IsNewClaim(s, f)
    ensures Settled(f, q.artifact) in Unknown(Classified(m.findings, q.artifact), Ids(Earlier(s)))
  {
    hide EnforceClass, Relocated, Ids, Earlier;
    SettledKeepsId(f, q.artifact);
    var k :| 0 <= k < |m.findings| && m.findings[k] == f;
    assert Classified(m.findings, q.artifact)[k] == Settled(f, q.artifact);
  }

  lemma SettledKeepsId(f: Finding, artifact: Artifact)
    ensures Settled(f, artifact).id == f.id
  {
  }

  /** Where `assign` puts it, and under which number. */
  lemma NewIsAssigned(q: Request, s: LoopState, m: Merged, f: Finding) returns (k: nat, n: nat)
    requires GoodState(s, q.pr) && f in m.findings && IsNewClaim(s, f)
    ensures k < |Assigned(q, s, m)| && n > s.highest
    ensures Assigned(q, s, m)[k] == Fresh(Settled(f, q.artifact), Id(q.pr, n), q.artifact)
  {
    hide Unknown, Classified, Fresh, Assign, Assigned, Earlier, AnsweredAll, Settled, IsNewClaim, Ids, GoodState;
    var e, new_ := Earlier(s), Classified(m.findings, q.artifact);
    NewIsUnknown(q, s, m, f);
    var unknown := Unknown(new_, Ids(e));
    var j :| 0 <= j < |unknown| && unknown[j] == Settled(f, q.artifact);
    EarlierAreNumbered(s, q.pr);
    AssignParts(new_, m.answers, e, q.pr, q.artifact, s.highest);
    AssignedIs(q, s, m);
    var answered := AnsweredAll(e, m.answers, Ids(new_) * Ids(e));
    k, n := |answered| + j, s.highest + 1 + j;
    assert Numbered(unknown, s.highest, q.pr, q.artifact)[j] == Fresh(unknown[j], Id(q.pr, n), q.artifact);
  }

  lemma AssignedIs(q: Request, s: LoopState, m: Merged)
    ensures Assigned(q, s, m) ==
      Assign(Classified(m.findings, q.artifact), m.answers, Earlier(s), q.pr, q.artifact, s.highest)
  {
  }

  /** Whether the pass lets a new blocker block: rounds 1 and 2 do, round 3 and a closure on a moved
      head do on what changed, and a closure on the judged head does not. */
  predicate MayBlock(q: Request, s: LoopState, g: Finding) {
    match NextStep(s)
    case JudgedRound(n) => n != 3 || !s.hasFindingsList || IsOnAChange(q, g)
    case Closing => !IsOnJudgedHead(q, s) && (!s.hasFindingsList || IsOnAChange(q, g))
    case Waiting => true
  }

  /** What the limits of the step make of a fresh finding. */
  lemma LimitedFresh(q: Request, s: LoopState, known: set<Id>, a: seq<Finding>, k: nat)
    requires k < |a| && a[k].status == New && a[k].id.Some?
    requires a[k].id.value !in known && a[k].id.value !in s.rulings
    requires EnforceClass(a[k], q.artifact) == a[k]
    ensures var r := Limited(q, s, NextStep(s), SameHead(q, s), known, a);
      && k < |r| && r[k] == a[k].(klass := r[k].klass)
      && IsLimitOf(q, s, a[k], r[k])
      && (OpenBlocker(r[k]) <==> a[k].klass == Some(Blocker) && MayBlock(q, s, r[k]))
  {
    hide NextStep;
  }

  predicate IsLimitOf(q: Request, s: LoopState, f: Finding, g: Finding) {
    var step := NextStep(s);
    if step == Closing && IsOnJudgedHead(q, s) then g.klass == Some(Note)
    else
      var late := s.hasFindingsList && (step == JudgedRound(3) || step == Closing) && !IsOnAChange(q, g);
      g.klass == if f.klass == Some(Blocker) && late
                 then Some(if q.artifact == SpecPlan then CarryForward else Note) else f.klass
  }

  lemma SettledTwice(f: Finding, i: Id, artifact: Artifact)
    ensures var g := Fresh(Settled(f, artifact), i, artifact);
      && EnforceClass(g, artifact) == g
      && g == Settled(f, artifact).(id := Some(i), status := New)
  {
  }

  /** The new claim as the pass records it. */
  ghost predicate IsRecordOf(q: Request, s: LoopState, f: Finding, g: Finding) {
    && g.id.Some? && g.id.value.pr == q.pr && g.id.value.n > s.highest && g.status == New
    && g.severity == f.severity && g.title == f.title && g.evidence == f.evidence && g.line == f.line
    && g.file == (if f.file == Description then JudgeDescription else f.file)
    && IsRecordedAs(q, s, f, g)
    && (OpenBlocker(g) <==> IsOwed(f, q.artifact, Blocker) && MayBlock(q, s, g))
  }

  lemma SettledIsOwed(f: Finding, artifact: Artifact)
    ensures Settled(f, artifact).klass.Some? && IsOwed(f, artifact, Settled(f, artifact).klass.value)
    ensures forall c :: IsOwed(f, artifact, c) ==> Settled(f, artifact).klass == Some(c)
  {
  }

  lemma NewIsInJudged(q: Request, s: LoopState, m: Merged, f: Finding) returns (g: Finding)
    requires GoodState(s, q.pr) && f in m.findings && IsNewClaim(s, f)
    ensures g in JudgedFindings(q, s, NextStep(s), SameHead(q, s), m) && IsRecordOf(q, s, f, g)
  {
    hide Assigned, Limited, MayBlock, NextStep, GoodState, Fresh, IsLimitOf, IsRecordedAs, IsOwed, EnforceClass;
    var k, n := NewIsAssigned(q, s, m, f);
    var a := Assigned(q, s, m);
    SettledTwice(f, Id(q.pr, n), q.artifact);
    NumberIsFree(q, s, n);
    LimitedFresh(q, s, Ids(Earlier(s)), a, k);
    g := Limited(q, s, NextStep(s), SameHead(q, s), Ids(Earlier(s)), a)[k];
    JudgedIs(q, s, m);
    SettledIsOwed(f, q.artifact);
    SettledKeepsWords(f, q.artifact);
    LimitIsRecorded(q, s, f, a[k], g);
  }

  lemma SettledKeepsWords(f: Finding, artifact: Artifact)
    ensures var g := Settled(f, artifact);
      && g.severity == f.severity && g.title == f.title && g.evidence == f.evidence && g.line == f.line
      && g.file == (if f.file == Description then JudgeDescription else f.file)
  {
  }

  lemma LimitIsRecorded(q: Request, s: LoopState, f: Finding, a: Finding, g: Finding)
    requires IsLimitOf(q, s, a, g) && a.klass == Settled(f, q.artifact).klass
    ensures IsRecordedAs(q, s, f, g)
    ensures a.klass == Some(Blocker) <==> IsOwed(f, q.artifact, Blocker)
  {
    hide NextStep, Settled, IsOwed, IsOnAChange;
    SettledIsOwed(f, q.artifact);
  }

  lemma JudgedIs(q: Request, s: LoopState, m: Merged)
    ensures JudgedFindings(q, s, NextStep(s), SameHead(q, s), m) ==
      Limited(q, s, NextStep(s), SameHead(q, s), Ids(Earlier(s)), Assigned(q, s, m))
  {
    hide Limited, Assigned, NextStep;
  }

  lemma NumberIsFree(q: Request, s: LoopState, n: nat)
    requires GoodState(s, q.pr) && n > s.highest
    ensures Id(q.pr, n) !in Ids(Earlier(s)) && Id(q.pr, n) !in s.rulings
  {
    EarlierAreNumbered(s, q.pr);
  }

  lemma JudgedIsFinished(q: Request, s: LoopState, step: Step, sameHead: bool, m: Merged, open: seq<Id>, g: Finding)
    requires g in JudgedFindings(q, s, step, sameHead, m) && IsOpen(g.status)
    ensures g in Capped(FinishedFindings(q, s, step, sameHead, m, open))
  {
    hide JudgedFindings, Gaps, Kept, Unseen, MechanicalOnRecord, Numbered;
  }

  /**
   * No new claim is lost: a pass that listens records each merged finding that repeats none on
   * record, in the judge's own words, under a number never used, as a blocker exactly when its
   * class and the step say so.
   */
  lemma NewClaimIsRecorded(q: Request, s: LoopState, open: seq<Id>, f: Finding)
    requires GoodState(s, q.pr) && Decide(q, s, open).Some? && WakesJudge(q, s)
    requires f in Merge(q.judgement, Known(s)).value.findings && IsNewClaim(s, f)
    ensures exists g :: g in Decide(q, s, open).value.findings && IsRecordOf(q, s, f, g)
  {
    hide Merge, FinishedFindings, Capped, AccountingOf, NextStep, IsRecordOf, GoodState, IsNewClaim, Await, Close,
      LocationsOf, JudgedFindings;
    var m := Merge(q.judgement, Known(s)).value;
    var g := NewIsInJudged(q, s, m, f);
    RecordIsOpen(q, s, f, g);
    JudgedIsFinished(q, s, NextStep(s), SameHead(q, s), m, open, g);
  }

  lemma RecordIsOpen(q: Request, s: LoopState, f: Finding, g: Finding)
    requires IsRecordOf(q, s, f, g)
    ensures IsOpen(g.status)
  {
  }

  /** In every run. */
  lemma NewClaimsAreRecorded(run: seq<Moment>, k: nat, v: Verdict, f: Finding)
    requires IsRun(run) && k < |run| && Appends(run[k], v) && WakesJudge(run[k].event.q, run[k].state)
    ensures Merge(run[k].event.q.judgement, Known(run[k].state)).Some?
    ensures f in Merge(run[k].event.q.judgement, Known(run[k].state)).value.findings && IsNewClaim(run[k].state, f) ==>
      exists g :: g in v.findings && IsRecordOf(run[k].event.q, run[k].state, f, g)
  {
    hide Merge, IsRecordOf, IsNewClaim, GoodState, Finish, Await, Close, LocationsOf;
    RecordedIsDecided(run, k, v);
    if f in Merge(run[k].event.q.judgement, Known(run[k].state)).value.findings && IsNewClaim(run[k].state, f) {
      NewClaimIsRecorded(run[k].event.q, run[k].state, run[k].open, f);
    }
  }
}
