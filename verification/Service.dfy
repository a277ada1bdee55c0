/** One review pass, from the receipts it reads to the verdict it appends
    (src/rail/reviewer/service.py). */
module Service {
  import opened Wrappers
  import opened Sequences
  import opened Findings
  import opened Carry
  import opened Rounds
  import opened Admission

  /** One pass over one head: what the description says, what the judges replied, what moved. */
  datatype Request = Request(
    repo: string, pr: nat, sha: string, check: int,
    artifact: Artifact, section: Section,
    delta: Option<Lines>, whole: Lines,
    judgement: Judgement,
    readAt: int, at: int)

  /** The findings and the accounting of a verdict, before it is recorded. */
  datatype Draft = Draft(findings: seq<Finding>, accounting: Option<CarryForwards>)

  // ---------------------------------------------------------------- the judged findings

  /** A judge's finding on the description never carries the mechanical location. */
  function Relocated(f: Finding): Finding {
    if IsMechanical(f) then f.(file := JudgeDescription) else f
  }

  function Classified(fs: seq<Finding>, artifact: Artifact): (r: seq<Finding>)
    ensures |r| == |fs|
    ensures forall k :: 0 <= k < |fs| ==> r[k] == EnforceClass(Relocated(fs[k]), artifact)
  {
    Map(f => EnforceClass(Relocated(f), artifact), fs)
  }

  function DemotedIfNew(f: Finding, covered: Lines, artifact: Artifact, known: set<Id>, skip: bool): Finding {
    if f.status == New then Demoted(f, covered, artifact, known, skip) else f
  }

  function NoteIfNew(f: Finding): Finding {
    if f.status == New then f.(klass := Some(Note)) else f
  }

  /** Round 3 and a closure on a moved head are bound to the delta. */
  function Bounded(q: Request, s: LoopState, known: set<Id>, fs: seq<Finding>): (r: seq<Finding>)
    ensures |r| == |fs|
    ensures forall k :: 0 <= k < |fs| ==>
      r[k] == DemotedIfNew(fs[k], DeltaLines(q), q.artifact, known, !s.hasFindingsList)
  {
    Map(f => DemotedIfNew(f, DeltaLines(q), q.artifact, known, !s.hasFindingsList), fs)
  }

  function Notes(fs: seq<Finding>): (r: seq<Finding>)
    ensures |r| == |fs| && forall k :: 0 <= k < |fs| ==> r[k] == NoteIfNew(fs[k])
  {
    Map(NoteIfNew, fs)
  }

  /** Without a delta the whole pull request counts as the delta. */
  function DeltaLines(q: Request): Lines {
    if q.delta.Some? then q.delta.value else q.whole
  }

  /** Round 3's and the closure's limits on new findings, then the closure's rulings. */
  function Limited(q: Request, s: LoopState, step: Step, sameHead: bool, known: set<Id>,
                   fs: seq<Finding>): seq<Finding>
  {
    var bounded := if step == JudgedRound(3) || (step == Closing && !sameHead)
                   then Bounded(q, s, known, fs) else fs;
    if step == Closing then
      ApplyRulings(if sameHead then Notes(bounded) else bounded, s.rulings)
    else bounded
  }

  /** `assign` on what the judges say of the judged findings on record. */
  function Assigned(q: Request, s: LoopState, m: Merged): seq<Finding> {
    Assign(Classified(m.findings, q.artifact), m.answers, Filter(IsJudged, s.findings),
           q.pr, q.artifact, s.highest)
  }

  /** The findings judges speak about: `assign`, then the limits of the step. */
  function JudgedFindings(q: Request, s: LoopState, step: Step, sameHead: bool, m: Merged): seq<Finding> {
    Limited(q, s, step, sameHead, Ids(Filter(IsJudged, s.findings)), Assigned(q, s, m))
  }

  // ---------------------------------------------------------------- the description's blockers

  function Unconfirmed(claimed: seq<Id>, confirmed: seq<Id>): (r: seq<Finding>)
    ensures forall f :: f in r <==> exists i :: i in claimed && i !in confirmed && f == NotAddressedBlocker(i)
  {
    var gaps := Filter(i => i !in confirmed, claimed);
    var r := Map(NotAddressedBlocker, gaps);
    assert forall f :: f in r ==> exists k :: 0 <= k < |gaps| && gaps[k] in gaps && f == NotAddressedBlocker(gaps[k]);
    assert forall i :: i in gaps ==> exists k :: 0 <= k < |gaps| && gaps[k] == i && r[k] == NotAddressedBlocker(i);
    r
  }

  /** The blockers the description earns now. */
  function CurrentBlockers(open: seq<Id>, section: Section, confirmed: seq<Id>): seq<Finding> {
    MechanicalBlockers(open, section) + Unconfirmed(Claimed(open, section), confirmed)
  }

  /** `base` plus the description's blockers: the earlier ones re-derived, then the new ones. */
  function WithMechanical(base: seq<Finding>, earlier: seq<Finding>, current: seq<Finding>,
                          pr: nat, artifact: Artifact, floor: nat): seq<Finding>
  {
    AppendNew(base + Kept(earlier, current), Unseen(earlier, current), pr, artifact, floor)
  }

  /** `dict.fromkeys`: each element once, in order. */
  function Once(s: seq<Id>): (r: seq<Id>)
    ensures forall i :: i in r <==> i in s
    ensures forall j, k :: 0 <= j < k < |r| ==> r[j] != r[k]
  {
    if s == [] then []
    else
      var last := s[|s| - 1];
      assert s == s[..|s| - 1] + [last];
      var r := Once(s[..|s| - 1]);
      if last in r then r else r + [last]
  }

  /** `_deferred`: the reasoned deferrals, and the gaps the operator ruled carry_forward. */
  function DeferredIds(open: seq<Id>, section: Section, fs: seq<Finding>): (r: seq<Id>)
    ensures forall i :: i in r <==>
      i in ReasonedDeferrals(open, section) || (i in RuledDeferred(fs) && i in open)
  {
    Once(ReasonedDeferrals(open, section) + Filter(i => i in open, RuledDeferred(fs)))
  }

  // ---------------------------------------------------------------- the three kinds of pass

  /** The mechanical blockers on record; a closure applies the rulings on them first. */
  function MechanicalOnRecord(s: LoopState, step: Step): seq<Finding> {
    var onRecord := Filter(IsMechanical, s.findings);
    if step == Closing then ApplyRulings(onRecord, s.rulings) else onRecord
  }

  /** The claims a pass takes as confirmed, given the answers of its judges. */
  function Confirmed(q: Request, s: LoopState, answers: map<Ref, AnswerStatus>, open: seq<Id>): seq<Id> {
    ConfirmedAddressed(s, Claimed(open, q.section), answers)
  }

  /** The blockers the description earns, given the answers of the judges. */
  function Gaps(q: Request, s: LoopState, answers: map<Ref, AnswerStatus>, open: seq<Id>): seq<Finding> {
    CurrentBlockers(open, q.section, Confirmed(q, s, answers, open))
  }

  /** How a code pull request accounts for the open carry-forwards, given its findings. */
  function AccountingOf(q: Request, s: LoopState, answers: map<Ref, AnswerStatus>, open: seq<Id>,
                        fs: seq<Finding>): Option<CarryForwards>
  {
    if q.artifact != Code then None
    else Some(CarryForwards(Confirmed(q, s, answers, open), DeferredIds(open, q.section, fs)))
  }

  /** `_finish` before the cap. */
  function FinishedFindings(q: Request, s: LoopState, step: Step, sameHead: bool, m: Merged,
                            open: seq<Id>): seq<Finding>
  {
    var judged := JudgedFindings(q, s, step, sameHead, m);
    if q.artifact != Code then judged
    else WithMechanical(judged, MechanicalOnRecord(s, step), Gaps(q, s, m.answers, open),
                        q.pr, q.artifact, s.highest)
  }

  /** `_finish`: the draft of a judged round or of a judged closure. */
  function Finish(q: Request, s: LoopState, step: Step, sameHead: bool, m: Merged, open: seq<Id>): Draft {
    var fs := FinishedFindings(q, s, step, sameHead, m, open);
    Draft(Capped(fs), AccountingOf(q, s, m.answers, open, fs))
  }

  /** `_mechanical_recomputed`: no judge runs, so only recorded confirmations count. */
  function MechanicalRecomputed(fs: seq<Finding>, q: Request, s: LoopState, open: seq<Id>): seq<Finding> {
    if q.artifact != Code then fs
    else
      WithMechanical(Filter(IsJudged, fs), Filter(IsMechanical, fs), Gaps(q, s, map[], open),
                     q.pr, q.artifact, s.highest)
  }

  /** The draft of an awaiting-ruling verdict. */
  function Await(q: Request, s: LoopState, open: seq<Id>): Draft {
    Draft(Capped(MechanicalRecomputed(s.findings, q, s, open)), None)
  }

  /** The draft of a closure no judge takes part in. */
  function Close(q: Request, s: LoopState, open: seq<Id>): Draft {
    var fs := MechanicalRecomputed(ApplyRulings(s.findings, s.rulings), q, s, open);
    Draft(Capped(fs), AccountingOf(q, s, map[], open, fs))
  }

  predicate AnyFixRuling(s: LoopState) {
    exists i :: i in s.rulings && s.rulings[i].kind == RuledFix
  }

  predicate SameHead(q: Request, s: LoopState) {
    s.lastJudged.Some? && s.lastJudged.value.sha == q.sha
  }

  /** A closure with nothing for a judge to read. */
  predicate ClosesWithoutJudge(q: Request, s: LoopState) {
    NextStep(s) == Closing && !AnyFixRuling(s) && SameHead(q, s)
  }

  /** The pass wakes a judge. */
  predicate WakesJudge(q: Request, s: LoopState) {
    NextStep(s) != Waiting && !ClosesWithoutJudge(q, s)
  }

  function LabelOf(step: Step): RoundLabel {
    match step
    case JudgedRound(n) => Round(n)
    case Waiting => AwaitingRuling
    case Closing => Closure
  }

  function Recorded(q: Request, step: Step, d: Draft): Verdict {
    Verdict(q.repo, q.pr, q.sha, q.check, LabelOf(step), q.artifact,
            step != Waiting && Approves(d.findings), d.findings, d.accounting, None, q.at, q.readAt)
  }

  /**
   * `_review_started` from the loop's state and the open carry-forwards. `None` when no verdict
   * is recorded: no judge answered, or a verdict built from scratch holds too many findings.
   */
  ghost function Decide(q: Request, s: LoopState, open: seq<Id>): Option<Verdict> {
    var step := NextStep(s);
    if step == Waiting then
      var d := Await(q, s, open);
      if |d.findings| > MAX_FINDINGS then None else Some(Recorded(q, step, d))
    else if ClosesWithoutJudge(q, s) then
      var d := Close(q, s, open);
      if |d.findings| > MAX_FINDINGS then None else Some(Recorded(q, step, d))
    else
      var m := Merge(q.judgement, LocationsOf(Filter(IsJudged, s.findings)));
      if m.None? then None
      else Some(Recorded(q, step, Finish(q, s, step, SameHead(q, s), m.value, open)))
  }

  // ---------------------------------------------------------------- the ledger it reads

  function VerdictsOf(vs: seq<Verdict>, repo: string, pr: nat): seq<Verdict> {
    Filter((v: Verdict) => v.repo == repo && v.pr == pr, vs)
  }

  function RulingsOf(rs: seq<Ruling>, repo: string, pr: nat): seq<Ruling> {
    Filter((r: Ruling) => r.repo == repo && r.pr == pr, rs)
  }

  /** The rulings recorded before an instant. */
  function RulingsBefore(rs: seq<Ruling>, t: int): seq<Ruling> {
    Filter((r: Ruling) => r.at < t, rs)
  }

  function StateFor(vs: seq<Verdict>, rs: seq<Ruling>, repo: string, pr: nat): LoopState {
    StateOf(VerdictsOf(vs, repo, pr), RulingsOf(rs, repo, pr))
  }

  /** The carry-forwards a pass must account for: a code pull request's only. */
  ghost function OpenFor(q: Request, vs: seq<Verdict>, rs: seq<Ruling>): seq<Id> {
    if q.artifact == Code then OpenList(vs, rs, q.repo, Some(q.pr)) else []
  }

  /** One pass over the ledger as it stood at `q.readAt`. */
  ghost function Review(q: Request, vs: seq<Verdict>, rs: seq<Ruling>): Option<Verdict> {
    var read := RulingsBefore(rs, q.readAt);
    Decide(q, StateFor(vs, read, q.repo, q.pr), OpenFor(q, vs, read))
  }
}
