/** The review loop's state and rules, from receipts only (src/rail/reviewer/rounds.py). */
module Rounds {
  import opened Wrappers
  import opened Sequences
  import opened Findings
  import opened Carry

  datatype RoundLabel = Round(n: nat) | AwaitingRuling | Closure | Mechanical

  /** The head and check run a carried verdict was copied from. */
  datatype Source = Source(sha: string, check: int)

  /**
   * One `review_verdict` record. `readAt` is the instant its pass read the ledger: it is not
   * part of the receipt, and no decision of the loop reads it.
   */
  datatype Verdict = Verdict(
    repo: string, pr: nat, sha: string, check: int,
    round: RoundLabel, artifact: Artifact, approve: bool,
    findings: seq<Finding>, accounting: Option<CarryForwards>,
    carried: Option<Source>, at: int, readAt: int)

  datatype RulingKind = RuledFix | RuledCarryForward

  /** One `review_ruling` record. */
  datatype Ruling = Ruling(repo: string, pr: nat, finding: Id, kind: RulingKind, at: int)

  datatype Step = JudgedRound(n: nat) | Waiting | Closing

  datatype LoopState = LoopState(
    judged: nat,
    lastJudged: Option<Verdict>,
    findings: seq<Finding>,
    rulings: map<Id, Ruling>,
    awaiting: bool,
    hasFindingsList: bool,
    confirmed: set<Id>,
    highest: nat)

  // ---------------------------------------------------------------- reading the receipts

  /** A mechanical verdict judged the form of receipts, never a round. */
  predicate IsLoop(v: Verdict) {
    v.round != Mechanical
  }

  predicate IsRound(v: Verdict) {
    v.round.Round? && 1 <= v.round.n <= 3
  }

  /** A judged round of its own: a carried verdict spends none. */
  predicate SpendsRound(v: Verdict) {
    IsRound(v) && v.carried.None?
  }

  predicate IsJudging(v: Verdict) {
    IsRound(v) || v.round == Closure
  }

  function Accounted(v: Verdict): CarryForwards {
    if v.accounting.None? then CarryForwards([], []) else v.accounting.value
  }

  predicate LinksTo(v: Verdict, earlier: Verdict) {
    v.carried == Some(Source(earlier.sha, earlier.check))
  }

  /** Follow the provenance of `v` back through `earlier`, newest first. */
  function Origin(v: Verdict, earlier: seq<Verdict>): Verdict
    decreases |earlier|
  {
    if earlier == [] then v
    else
      var last := earlier[|earlier| - 1];
      Origin(if LinksTo(v, last) then last else v, earlier[..|earlier| - 1])
  }

  /** A verdict judged by a pass of its own is its own origin. */
  lemma {:induction false} OwnOrigin(v: Verdict, earlier: seq<Verdict>)
    requires v.carried.None?
    ensures Origin(v, earlier) == v
    decreases |earlier|
  {
    if earlier != [] {
      OwnOrigin(v, earlier[..|earlier| - 1]);
    }
  }

  lemma OriginBack(v: Verdict, earlier: seq<Verdict>, last: Verdict)
    ensures Origin(v, earlier + [last]) == Origin(if LinksTo(v, last) then last else v, earlier)
  {
    hide LinksTo;
    assert (earlier + [last])[..|earlier|] == earlier;
  }

  /** Per finding, the latest ruling recorded after `after`. */
  function RuledAfter(rulings: seq<Ruling>, after: Option<int>): (m: map<Id, Ruling>)
    ensures forall i :: i in m ==>
      m[i] in rulings && m[i].finding == i && (after.None? || m[i].at > after.value)
    ensures forall r :: r in rulings && (after.None? || r.at > after.value) ==> r.finding in m
  {
    if rulings == [] then map[]
    else
      var last := rulings[|rulings| - 1];
      var init := rulings[..|rulings| - 1];
      assert rulings == init + [last];
      var m := RuledAfter(init, after);
      if after.Some? && last.at <= after.value then m else m[last.finding := last]
  }

  predicate CountsAfter(r: Ruling, after: Option<int>) {
    after.None? || r.at > after.value
  }

  /** Of a finding's rulings that count, the last recorded one holds. */
  lemma {:induction false} LatestRulingHolds(rulings: seq<Ruling>, after: Option<int>, k: nat)
    requires k < |rulings| && CountsAfter(rulings[k], after)
    requires forall j :: k < j < |rulings| && rulings[j].finding == rulings[k].finding ==>
      !CountsAfter(rulings[j], after)
    ensures rulings[k].finding in RuledAfter(rulings, after)
    ensures RuledAfter(rulings, after)[rulings[k].finding] == rulings[k]
    decreases |rulings|
  {
    if k < |rulings| - 1 {
      LatestRulingHolds(rulings[..|rulings| - 1], after, k);
    }
  }

  function ConfirmedBy(judging: seq<Verdict>): (ids: set<Id>)
    ensures forall i :: i in ids <==> exists v :: v in judging && i in Accounted(v).addressed
  {
    set v, i | v in judging && i in Accounted(v).addressed :: i
  }

  function HighestOf(vs: seq<Verdict>): (n: nat)
    ensures forall v, f :: v in vs && f in v.findings && f.id.Some? ==> f.id.value.n <= n
    ensures n == 0 || exists v, f :: v in vs && f in v.findings && f.id.Some? && f.id.value.n == n
  {
    if vs == [] then 0
    else
      var rest := HighestOf(vs[..|vs| - 1]);
      var last := vs[|vs| - 1];
      assert vs == vs[..|vs| - 1] + [last];
      var own := Highest(last.findings);
      if own > rest then own else rest
  }

  /** When the judgment the loop stands on happened: a carried verdict keeps its source's instant. */
  function JudgedAt(judging: seq<Verdict>): Option<int> {
    if judging == [] then None
    else Some(Origin(judging[|judging| - 1], judging[..|judging| - 1]).at)
  }

  /** The state, from the loop's verdicts `vs`, the judging ones among them, and their count. */
  function StateFrom(vs: seq<Verdict>, judging: seq<Verdict>, judged: nat, rulings: seq<Ruling>): LoopState {
    var lastJudged := if judging == [] then None else Some(judging[|judging| - 1]);
    var findings := if vs == [] then [] else vs[|vs| - 1].findings;
    var openEnded := lastJudged.Some? &&
      (lastJudged.value.round == Closure || lastJudged.value.round == Round(3));
    LoopState(judged, lastJudged, findings, RuledAfter(rulings, JudgedAt(judging)),
              !Approves(findings) && openEnded, vs != [], ConfirmedBy(judging), HighestOf(vs))
  }

  /** `loop_state`: the loop's state, rebuilt from one pull request's records. */
  function StateOf(verdicts: seq<Verdict>, rulings: seq<Ruling>): LoopState {
    var vs := Filter(IsLoop, verdicts);
    StateFrom(vs, Filter(IsJudging, vs), |Filter(SpendsRound, vs)|, rulings)
  }

  // ---------------------------------------------------------------- what to do next

  function Unruled(s: LoopState): (r: seq<Finding>)
    ensures forall f :: f in r <==> f in s.findings && NeedsRuling(s, f)
  {
    Filter(f => NeedsRuling(s, f), s.findings)
  }

  predicate IsRuledIn(s: LoopState, f: Finding) {
    f.id.Some? && f.id.value in s.rulings
  }

  predicate NeedsRuling(s: LoopState, f: Finding) {
    OpenBlocker(f) && !IsRuledIn(s, f) && !IsBodyDerived(f)
  }

  function Min(a: nat, b: nat): nat {
    if a < b then a else b
  }

  function NextStep(s: LoopState): Step {
    if s.awaiting then
      if Unruled(s) != [] then Waiting
      else if exists f :: f in s.findings && OpenBlocker(f) && IsRuledIn(s, f) && !IsBodyDerived(f)
      then Closing
      else JudgedRound(3)
    else JudgedRound(Min(s.judged + 1, 3))
  }

  function ConfirmedAddressed(s: LoopState, claimed: seq<Id>, answers: map<Ref, AnswerStatus>)
    : (r: seq<Id>)
    ensures forall i :: i in r <==> i in claimed && IsConfirmed(s, i, answers)
  {
    Filter(i => IsConfirmed(s, i, answers), claimed)
  }

  predicate IsConfirmed(s: LoopState, i: Id, answers: map<Ref, AnswerStatus>) {
    || (CF(i) in answers && answers[CF(i)] == AnsweredFixed)
    || (i in s.confirmed && !(CF(i) in answers && answers[CF(i)] == AnsweredOpen))
  }

  // ---------------------------------------------------------------- classes

  /** New-side lines each changed file covers, as parsed from a diff. */
  type Lines = map<string, set<nat>>

  function EnforceClass(f: Finding, artifact: Artifact): Finding {
    var klass :=
      if artifact == Code || f.klass.None? || f.klass.value == Note then
        if f.severity == Blocking then Blocker else Note
      else f.klass.value;
    f.(klass := Some(klass))
  }

  function DemotedClass(artifact: Artifact): Class {
    if artifact == SpecPlan then CarryForward else Note
  }

  predicate InsideDelta(f: Finding, covered: Lines) {
    f.file.Path? && f.file.spelling in covered && (f.line.None? || f.line.value in covered[f.file.spelling])
  }

  /** `demote_outside` on one finding. */
  function Demoted(f: Finding, covered: Lines, artifact: Artifact, known: set<Id>, skip: bool): Finding {
    var g := EnforceClass(f, artifact);
    if skip || (g.id.Some? && g.id.value in known) || g.klass != Some(Blocker)
       || InsideDelta(g, covered) then g
    else g.(klass := Some(DemotedClass(artifact)))
  }

  /** What is demoted: a blocker that is on no record and does not lie on a covered line; it is handed
      on by a plan and noted by code, and anything else keeps its class. */
  lemma DemotedMeans(f: Finding, covered: Lines, artifact: Artifact, known: set<Id>)
    ensures var g := Demoted(f, covered, artifact, known, false);
      if || (exists i :: f.id == Some(i) && i in known) || EnforceClass(f, artifact).klass != Some(Blocker)
         || (f.file.Path? && f.file.spelling in covered
             && (f.line == None || f.line.value in covered[f.file.spelling]))
      then g == EnforceClass(f, artifact)
      else g == f.(klass := Some(if artifact == SpecPlan then CarryForward else Note))
    ensures Demoted(f, covered, artifact, known, true) == EnforceClass(f, artifact)
  {
  }

  // ---------------------------------------------------------------- numbering

  /** One earlier finding with its new status. */
  function Answered(f: Finding, answers: map<Ref, AnswerStatus>, repeated: set<Id>): Finding {
    if f.status == Ruled || f.id.None? then f
    else
      var again := f.id.value in repeated;
      var fixed := F(f.id.value) in answers && answers[F(f.id.value)] == AnsweredFixed;
      if f.status == Fixed then if again then f.(status := StillOpen) else f
      else f.(status := if fixed && !again then Fixed else StillOpen)
  }

  function Fresh(f: Finding, id: Id, artifact: Artifact): Finding {
    EnforceClass(f.(id := Some(id), status := New), artifact)
  }

  /** `extra` numbered `highest + 1`, `highest + 2`, … in order. */
  function Numbered(extra: seq<Finding>, highest: nat, pr: nat, artifact: Artifact): (r: seq<Finding>)
    ensures |r| == |extra|
    ensures forall k :: 0 <= k < |r| ==> r[k] == Fresh(extra[k], Id(pr, highest + 1 + k), artifact)
  {
    seq(|extra|, k requires 0 <= k < |extra| => Fresh(extra[k], Id(pr, highest + 1 + k), artifact))
  }

  predicate HasId(f: Finding) {
    f.id.Some?
  }

  function Max(a: nat, b: nat): nat {
    if a < b then b else a
  }

  /** Every earlier finding with its new status, in place. */
  function AnsweredAll(fs: seq<Finding>, answers: map<Ref, AnswerStatus>, repeated: set<Id>): (r: seq<Finding>)
    ensures |r| == |fs| && forall k :: 0 <= k < |fs| ==> r[k] == Answered(fs[k], answers, repeated)
  {
    Map(f => Answered(f, answers, repeated), fs)
  }

  /** The judges' findings that repeat no id on record. */
  function Unknown(fs: seq<Finding>, known: set<Id>): (r: seq<Finding>)
    ensures forall f :: f in r <==> f in fs && (f.id.None? || f.id.value !in known)
  {
    Filter((f: Finding) => f.id.None? || f.id.value !in known, fs)
  }

  /** `assign`: every earlier finding with its new status, then the new ones numbered. */
  function Assign(new_: seq<Finding>, answers: map<Ref, AnswerStatus>, earlier: seq<Finding>,
                  pr: nat, artifact: Artifact, floor: nat): seq<Finding>
  {
    var known := Ids(earlier);
    AnsweredAll(Filter(HasId, earlier), answers, Ids(new_) * known)
    + Numbered(Unknown(new_, known), Max(Highest(earlier), floor), pr, artifact)
  }

  /** `append_new`: `findings` unchanged, then `extra` numbered above every id in use. */
  function AppendNew(findings: seq<Finding>, extra: seq<Finding>, pr: nat, artifact: Artifact,
                     floor: nat): seq<Finding>
  {
    findings + Numbered(extra, Max(Highest(findings), floor), pr, artifact)
  }

  // ---------------------------------------------------------------- rulings

  predicate IsDeferredBy(f: Finding, rulings: map<Id, Ruling>) {
    f.id.Some? && f.id.value in rulings && rulings[f.id.value].kind == RuledCarryForward
  }

  function AfterRulings(f: Finding, rulings: map<Id, Ruling>): Finding {
    if IsDeferredBy(f, rulings) then f.(klass := Some(CarryForward), status := Ruled) else f
  }

  function ApplyRulings(fs: seq<Finding>, rulings: map<Id, Ruling>): (r: seq<Finding>)
    ensures |r| == |fs| && forall k :: 0 <= k < |fs| ==> r[k] == AfterRulings(fs[k], rulings)
  {
    Map(f => AfterRulings(f, rulings), fs)
  }

  // ---------------------------------------------------------------- open carry-forwards

  /** An approving verdict of the repository opens the carry-forward `i`. */
  predicate OpensByVerdict(verdicts: seq<Verdict>, repo: string, i: Id) {
    exists v :: v in verdicts && v.repo == repo && v.approve &&
      exists f :: f in v.findings && f.id == Some(i) && f.klass == Some(CarryForward)
        && f.status != Fixed && !IsMechanical(f)
  }

  predicate EverApproved(verdicts: seq<Verdict>, repo: string, pr: nat) {
    exists v :: v in verdicts && v.repo == repo && v.pr == pr && v.approve
  }

  /** A mechanical finding accounts for someone else's carry-forward; it is never one itself. */
  predicate IsMechanicalId(verdicts: seq<Verdict>, repo: string, pr: nat, i: Id) {
    exists v :: v in verdicts && v.repo == repo && v.pr == pr &&
      exists f :: f in v.findings && f.id == Some(i) && IsMechanical(f)
  }

  predicate RulingOpens(verdicts: seq<Verdict>, repo: string, r: Ruling) {
    && r.repo == repo && r.kind == RuledCarryForward
    && EverApproved(verdicts, repo, r.pr) && !IsMechanicalId(verdicts, repo, r.pr, r.finding)
  }

  predicate OpensByRuling(verdicts: seq<Verdict>, rulings: seq<Ruling>, repo: string, i: Id) {
    exists r :: r in rulings && RulingOpens(verdicts, repo, r) && r.finding == i
  }

  predicate IsAddressed(verdicts: seq<Verdict>, repo: string, i: Id) {
    exists v :: v in verdicts && v.repo == repo && v.approve && i in Accounted(v).addressed
  }

  /** `open_carry_forwards`, as a membership test. */
  predicate IsOpenCarryForward(verdicts: seq<Verdict>, rulings: seq<Ruling>, repo: string,
                               excluding: Option<nat>, i: Id)
  {
    && (OpensByVerdict(verdicts, repo, i) || OpensByRuling(verdicts, rulings, repo, i))
    && !IsAddressed(verdicts, repo, i)
    && excluding != Some(i.pr)
  }

  /** The pull request of the ruling was approved after it, as the documentation asks. */
  predicate IsApprovedLater(verdicts: seq<Verdict>, repo: string, r: Ruling) {
    exists v :: v in verdicts && v.repo == repo && v.pr == r.pr && v.approve && v.at > r.at
  }

  predicate OpensByLateApproval(verdicts: seq<Verdict>, rulings: seq<Ruling>, repo: string, i: Id) {
    exists r :: r in rulings && RulingOpens(verdicts, repo, r) && IsApprovedLater(verdicts, repo, r) && r.finding == i
  }

  /** Open as the documentation has it: a ruling opens nothing before its pull request is approved again. */
  predicate IsOpenAsDocumented(verdicts: seq<Verdict>, rulings: seq<Ruling>, repo: string,
                               excluding: Option<nat>, i: Id)
  {
    && (OpensByVerdict(verdicts, repo, i) || OpensByLateApproval(verdicts, rulings, repo, i))
    && !IsAddressed(verdicts, repo, i)
    && excluding != Some(i.pr)
  }

  /**
   * The code opens a carry-forward the documentation does not, and never the reverse: exactly when
   * no approving verdict holds it, and a ruling on it has its pull request's approvals, at least
   * one, all behind it.
   */
  lemma OpensTooEarlyWhen(verdicts: seq<Verdict>, rulings: seq<Ruling>, repo: string, excluding: Option<nat>, i: Id)
    ensures IsOpenAsDocumented(verdicts, rulings, repo, excluding, i) ==>
      IsOpenCarryForward(verdicts, rulings, repo, excluding, i)
    ensures
      && IsOpenCarryForward(verdicts, rulings, repo, excluding, i)
      && !IsOpenAsDocumented(verdicts, rulings, repo, excluding, i) <==>
        && !OpensByVerdict(verdicts, repo, i) && !IsAddressed(verdicts, repo, i) && excluding != Some(i.pr)
        && (exists r :: r in rulings && RulingOpens(verdicts, repo, r) && r.finding == i)
        && forall r, v ::
             (r in rulings && RulingOpens(verdicts, repo, r) && r.finding == i
              && v in verdicts && v.repo == repo && v.pr == r.pr && v.approve) ==> v.at <= r.at
  {
  }

  /** Every id an open carry-forward can have. */
  function Candidates(verdicts: seq<Verdict>, rulings: seq<Ruling>): set<Id> {
    (set v, f | v in verdicts && f in v.findings && f.id.Some? :: f.id.value)
    + (set r | r in rulings :: r.finding)
  }

  function OpenSet(verdicts: seq<Verdict>, rulings: seq<Ruling>, repo: string, excluding: Option<nat>)
    : (s: set<Id>)
    ensures forall i :: i in s <==> IsOpenCarryForward(verdicts, rulings, repo, excluding, i)
  {
    set i | i in Candidates(verdicts, rulings) && IsOpenCarryForward(verdicts, rulings, repo, excluding, i)
  }

  predicate Before(a: Id, b: Id) {
    a.pr < b.pr || (a.pr == b.pr && a.n < b.n)
  }

  ghost predicate IsSorted(s: seq<Id>) {
    forall i, j :: 0 <= i < j < |s| ==> Before(s[i], s[j])
  }

  /** `i` inserted in a sorted list. */
  function Insert(i: Id, s: seq<Id>): (r: seq<Id>)
    ensures forall x :: x in r <==> x == i || x in s
    ensures IsSorted(s) && i !in s ==> IsSorted(r)
  {
    if s == [] then [i]
    else if Before(i, s[0]) then [i] + s
    else
      var rest := Insert(i, s[1..]);
      assert s == [s[0]] + s[1..];
      assert forall x :: x in s[1..] && IsSorted(s) ==> Before(s[0], x);
      [s[0]] + rest
  }

  /** A set of ids as the list sorted by pull request, then number. */
  ghost function Sorted(ids: set<Id>): (r: seq<Id>)
    ensures IsSorted(r)
    ensures forall i :: i in r <==> i in ids
  {
    if ids == {} then []
    else
      var i :| i in ids;
      assert ids == (ids - {i}) + {i};
      Insert(i, Sorted(ids - {i}))
  }

  /** `open_carry_forwards`: each open carry-forward once, by pull request then number. */
  ghost function OpenList(verdicts: seq<Verdict>, rulings: seq<Ruling>, repo: string,
                          excluding: Option<nat>): (r: seq<Id>)
    ensures IsSorted(r)
    ensures forall i :: i in r <==> IsOpenCarryForward(verdicts, rulings, repo, excluding, i)
  {
    Sorted(OpenSet(verdicts, rulings, repo, excluding))
  }

  lemma SortedTail(a: seq<Id>, i: Id)
    requires IsSorted(a) && a != []
    ensures i in a[1..] <==> i in a && i != a[0]
  {
  }

  lemma SameFirst(a: seq<Id>, b: seq<Id>)
    requires IsSorted(a) && IsSorted(b) && a != [] && b != [] && a[0] in b && b[0] in a
    ensures a[0] == b[0]
  {
  }

  /** A set of ids has one sorted list, so the review and the gate read the same one. */
  lemma {:induction false} SortedListUnique(a: seq<Id>, b: seq<Id>)
    requires IsSorted(a) && IsSorted(b)
    requires forall i :: i in a <==> i in b
    ensures a == b
  {
    HasMember(b);
    if a != [] {
      assert a[0] in a;
      SameFirst(a, b);
      forall i ensures i in a[1..] <==> i in b[1..] {
        SortedTail(a, i);
        SortedTail(b, i);
      }
      SortedListUnique(a[1..], b[1..]);
      assert a == [a[0]] + a[1..] && b == [b[0]] + b[1..];
    }
  }
}
