/** What one pass may do to the findings on record. */
module PassShape {
  import opened Wrappers
  import opened Sequences
  import opened Findings
  import opened Carry
  import opened Rounds
  import opened Admission
  import opened Service

  // ---------------------------------------------------------------- well-formed records

  /** A mechanical finding is one of the review's own blockers, or such a gap once ruled. */
  predicate IsMechanicalShape(f: Finding) {
    && !f.title.Said? && f.severity == Blocking
    && if f.status == Ruled then f.title.NotAddressed? else f.klass == Some(Blocker)
  }

  predicate IsRecorded(f: Finding, pr: nat) {
    && f.id.Some? && f.id.value.pr == pr && f.klass.Some?
    && (IsMechanical(f) ==> IsMechanicalShape(f))
  }

  ghost predicate GoodFindings(fs: seq<Finding>, pr: nat) {
    DistinctIds(fs) && forall f :: f in fs ==> IsRecorded(f, pr)
  }

  /** What the receipts guarantee of the state rebuilt from them. */
  ghost predicate GoodState(s: LoopState, pr: nat) {
    && GoodFindings(s.findings, pr)
    && (forall f :: f in s.findings ==> f.id.value.n <= s.highest)
    && (forall i :: i in s.rulings ==> i.pr == pr && i.n <= s.highest)
    && (forall f :: f in s.findings && IsRuledIn(s, f) ==> !IsBodyDerived(f))
    && (s.findings != [] || s.judged > 0 ==> s.hasFindingsList)
    && (s.awaiting ==> s.findings != [])
  }

  // ---------------------------------------------------------------- the fate of a finding

  /** What one pass with a judge does to an earlier judged finding. */
  function JudgedFate(f: Finding, s: LoopState, step: Step, answers: map<Ref, AnswerStatus>,
                      repeated: set<Id>): Finding
  {
    var g := Answered(f, answers, repeated);
    if step == Closing then AfterRulings(g, s.rulings) else g
  }

  predicate IsFreshJudged(g: Finding, id: Id) {
    g.id == Some(id) && g.status == New && g.klass.Some? && !IsMechanical(g)
  }

  /** The earlier findings a judge may answer, and the ids its findings repeat. */
  function Earlier(s: LoopState): seq<Finding> {
    Filter(IsJudged, s.findings)
  }

  function Repeated(q: Request, s: LoopState, m: Merged): set<Id> {
    Ids(Classified(m.findings, q.artifact)) * Ids(Earlier(s))
  }

  lemma IdsByIndex(fs: seq<Finding>, i: Id)
    ensures i in Ids(fs) <==> exists k :: 0 <= k < |fs| && fs[k].id == Some(i)
  {
  }

  lemma ClassifiedKeepsIds(fs: seq<Finding>, artifact: Artifact)
    ensures Ids(Classified(fs, artifact)) == Ids(fs)
  {
    var r := Classified(fs, artifact);
    assert forall k :: 0 <= k < |fs| ==> r[k].id == fs[k].id;
    forall i ensures i in Ids(r) <==> i in Ids(fs) {
      IdsByIndex(r, i);
      IdsByIndex(fs, i);
    }
  }

  lemma ClassifiedIsJudged(fs: seq<Finding>, artifact: Artifact)
    ensures forall f :: f in Classified(fs, artifact) ==> IsJudged(f)
  {
  }

  /** Freshly numbered judged findings carry consecutive ids above `highest`. */
  lemma NumberedIsFresh(extra: seq<Finding>, highest: nat, pr: nat, artifact: Artifact)
    requires forall k :: 0 <= k < |extra| ==> IsJudged(extra[k])
    ensures var r := Numbered(extra, highest, pr, artifact);
      forall k :: 0 <= k < |r| ==> IsFreshJudged(r[k], Id(pr, highest + 1 + k))
  {
  }

  lemma UnknownIsJudged(fs: seq<Finding>, known: set<Id>)
    requires forall f :: f in fs ==> IsJudged(f)
    ensures var r := Unknown(fs, known); forall k :: 0 <= k < |r| ==> IsJudged(r[k])
  {
  }

  /** With every id below the floor, `assign` is the answered list and the numbered one. */
  lemma AssignParts(new_: seq<Finding>, answers: map<Ref, AnswerStatus>, e: seq<Finding>,
                    pr: nat, artifact: Artifact, floor: nat)
    requires forall f :: f in e ==> f.id.Some? && f.id.value.n <= floor
    ensures Assign(new_, answers, e, pr, artifact, floor)
         == AnsweredAll(e, answers, Ids(new_) * Ids(e)) + Numbered(Unknown(new_, Ids(e)), floor, pr, artifact)
  {
    FilterAll(HasId, e);
    assert Max(Highest(e), floor) == floor;
  }

  predicate IsFreshFrom(fs: seq<Finding>, start: nat, pr: nat, highest: nat) {
    && start <= |fs|
    && forall k :: start <= k < |fs| ==> IsFreshJudged(fs[k], Id(pr, highest + 1 + k - start))
  }

  lemma FreshAfter(kept: seq<Finding>, more: seq<Finding>, pr: nat, highest: nat)
    requires forall k :: 0 <= k < |more| ==> IsFreshJudged(more[k], Id(pr, highest + 1 + k))
    ensures IsFreshFrom(kept + more, |kept|, pr, highest)
  {
  }

  /** `assign`: the earlier findings in place, then the unknown ones numbered above `floor`. */
  lemma AssignShape(new_: seq<Finding>, answers: map<Ref, AnswerStatus>, e: seq<Finding>,
                    pr: nat, artifact: Artifact, floor: nat)
    requires forall f :: f in e ==> f.id.Some? && f.id.value.n <= floor
    requires forall f :: f in new_ ==> IsJudged(f)
    ensures var a := Assign(new_, answers, e, pr, artifact, floor);
      && IsFreshFrom(a, |e|, pr, floor)
      && a[..|e|] == AnsweredAll(e, answers, Ids(new_) * Ids(e))
  {
    var unknown := Unknown(new_, Ids(e));
    AssignParts(new_, answers, e, pr, artifact, floor);
    UnknownIsJudged(new_, Ids(e));
    NumberedIsFresh(unknown, floor, pr, artifact);
    FreshAfter(AnsweredAll(e, answers, Ids(new_) * Ids(e)), Numbered(unknown, floor, pr, artifact), pr, floor);
  }

  /** Class limits and rulings leave the order, the ids and the earlier findings' fate alone. */
  lemma LimitsKeepShape(q: Request, s: LoopState, step: Step, sameHead: bool, known: set<Id>,
                        a: seq<Finding>, start: nat)
    requires IsFreshFrom(a, start, q.pr, s.highest)
    requires forall k :: 0 <= k < start ==> a[k].status != New
    requires forall i :: i in s.rulings ==> i.n <= s.highest
    ensures var r := Limited(q, s, step, sameHead, known, a);
      && |r| == |a| && IsFreshFrom(r, start, q.pr, s.highest)
      && forall k :: 0 <= k < start ==>
           r[k] == if step == Closing then AfterRulings(a[k], s.rulings) else a[k]
  {
    var r := Limited(q, s, step, sameHead, known, a);
    forall k | start <= k < |r| ensures IsFreshJudged(r[k], Id(q.pr, s.highest + 1 + k - start)) {
      assert Id(q.pr, s.highest + 1 + k - start) !in s.rulings;
    }
  }

  /** The answered part of `assign` holds no new status. */
  lemma AnsweredPart(a: seq<Finding>, e: seq<Finding>, answers: map<Ref, AnswerStatus>, repeated: set<Id>)
    requires |e| <= |a| && a[..|e|] == AnsweredAll(e, answers, repeated)
    requires forall k :: 0 <= k < |e| ==> e[k].id.Some?
    ensures forall k :: 0 <= k < |e| ==> a[k] == Answered(e[k], answers, repeated) && a[k].status != New
  {
  }

  lemma EarlierAreNumbered(s: LoopState, pr: nat)
    requires GoodState(s, pr)
    ensures forall f :: f in Earlier(s) ==> f.id.Some? && f.id.value.n <= s.highest
    ensures forall k :: 0 <= k < |Earlier(s)| ==> Earlier(s)[k].id.Some?
  {
  }

  /** `assign` in a pass: answers in place, then ids above every one the pull request held. */
  lemma AssignedShape(q: Request, s: LoopState, m: Merged)
    requires GoodState(s, q.pr)
    ensures var e := Earlier(s); var a := Assigned(q, s, m);
      && IsFreshFrom(a, |e|, q.pr, s.highest)
      && forall k :: 0 <= k < |e| ==>
           a[k] == Answered(e[k], m.answers, Repeated(q, s, m)) && a[k].status != New
  {
    var new_ := Classified(m.findings, q.artifact);
    EarlierAreNumbered(s, q.pr);
    ClassifiedIsJudged(m.findings, q.artifact);
    AssignShape(new_, m.answers, Earlier(s), q.pr, q.artifact, s.highest);
    AnsweredPart(Assigned(q, s, m), Earlier(s), m.answers, Repeated(q, s, m));
  }

  /** The judged part of a pass: every earlier finding in place, then fresh ones numbered on. */
  lemma JudgedShape(q: Request, s: LoopState, step: Step, sameHead: bool, m: Merged)
    requires GoodState(s, q.pr)
    ensures var e := Earlier(s);
      var r := JudgedFindings(q, s, step, sameHead, m);
      && IsFreshFrom(r, |e|, q.pr, s.highest)
      && (forall k :: 0 <= k < |e| ==> r[k] == JudgedFate(e[k], s, step, m.answers, Repeated(q, s, m)))
  {
    hide Assigned, Limited, Answered, AfterRulings;
    AssignedShape(q, s, m);
    LimitsKeepShape(q, s, step, sameHead, Ids(Earlier(s)), Assigned(q, s, m), |Earlier(s)|);
  }

  // ---------------------------------------------------------------- what a pass may record

  /** `g` is the finding `f` on record, and only a ruling may have changed its class. */
  predicate Continues(s: LoopState, f: Finding, g: Finding) {
    && SameClaim(f, g)
    && (g.klass == f.klass ||
        (IsDeferredBy(f, s.rulings) && g.klass == Some(CarryForward) && g.status == Ruled))
  }

  predicate ContinuesSome(s: LoopState, g: Finding) {
    exists f :: f in s.findings && Continues(s, f, g)
  }

  /** `g` has an id no verdict of the pull request ever held. */
  predicate IsNewlyNumbered(s: LoopState, g: Finding) {
    g.id.Some? && g.id.value.n > s.highest && g.status == New
  }

  predicate IsLawful(s: LoopState, pr: nat, g: Finding) {
    IsRecorded(g, pr) && (ContinuesSome(s, g) || IsNewlyNumbered(s, g))
  }

  ghost predicate LawfulList(s: LoopState, pr: nat, fs: seq<Finding>) {
    DistinctIds(fs) && forall g :: g in fs ==> IsLawful(s, pr, g)
  }

  lemma FateIsLawful(s: LoopState, pr: nat, f: Finding, step: Step, answers: map<Ref, AnswerStatus>,
                     repeated: set<Id>)
    requires GoodState(s, pr) && f in s.findings && IsJudged(f)
    ensures IsLawful(s, pr, JudgedFate(f, s, step, answers, repeated))
  {
    assert Continues(s, f, JudgedFate(f, s, step, answers, repeated));
  }

  lemma FatesAreLawful(s: LoopState, pr: nat, step: Step, answers: map<Ref, AnswerStatus>, repeated: set<Id>)
    requires GoodState(s, pr)
    ensures forall f :: f in Earlier(s) ==>
      var g := JudgedFate(f, s, step, answers, repeated);
      IsLawful(s, pr, g) && IsJudged(g) && g.id == f.id && g.id.Some? && g.id.value.n <= s.highest
  {
    forall f | f in Earlier(s)
      ensures var g := JudgedFate(f, s, step, answers, repeated);
        IsLawful(s, pr, g) && IsJudged(g) && g.id == f.id && g.id.Some? && g.id.value.n <= s.highest
    {
      FateIsLawful(s, pr, f, step, answers, repeated);
    }
  }

  lemma JudgedIsLawful(q: Request, s: LoopState, step: Step, sameHead: bool, m: Merged)
    requires GoodState(s, q.pr)
    ensures LawfulList(s, q.pr, JudgedFindings(q, s, step, sameHead, m))
    ensures forall g :: g in JudgedFindings(q, s, step, sameHead, m) ==> IsJudged(g)
  {
    var e := Earlier(s);
    var r := JudgedFindings(q, s, step, sameHead, m);
    var repeated := Repeated(q, s, m);
    JudgedShape(q, s, step, sameHead, m);
    FatesAreLawful(s, q.pr, step, m.answers, repeated);
    FilterKeepsIdsDistinct(IsJudged, s.findings);
    ShapeIsLawful(s, q.pr, e, r, step, m.answers, repeated);
  }

  lemma ShapeIsLawful(s: LoopState, pr: nat, e: seq<Finding>, r: seq<Finding>, step: Step,
                      answers: map<Ref, AnswerStatus>, repeated: set<Id>)
    requires DistinctIds(e) && IsFreshFrom(r, |e|, pr, s.highest)
    requires forall k :: 0 <= k < |e| ==> r[k] == JudgedFate(e[k], s, step, answers, repeated)
    requires forall f :: f in e ==>
      var g := JudgedFate(f, s, step, answers, repeated);
      IsLawful(s, pr, g) && IsJudged(g) && g.id == f.id && g.id.Some? && g.id.value.n <= s.highest
    ensures LawfulList(s, pr, r)
    ensures forall g :: g in r ==> IsJudged(g)
  {
  }

  // ---------------------------------------------------------------- the mechanical part

  predicate IsUnnumberedBlocker(f: Finding) {
    IsMechanical(f) && !f.title.Said? && f.severity == Blocking && f.klass == Some(Blocker)
  }

  lemma CurrentAreBlockers(open: seq<Id>, section: Section, confirmed: seq<Id>)
    ensures forall f :: f in CurrentBlockers(open, section, confirmed) ==> IsUnnumberedBlocker(f)
  {
    var a := MechanicalBlockers(open, section);
    var b := Unconfirmed(Claimed(open, section), confirmed);
    forall f | f in a + b ensures IsUnnumberedBlocker(f) {
      assert f in a || f in b;
    }
  }

  /** Numbering above everything in use adds distinct, never used ids. */
  lemma AppendKeepsIdsDistinct(fs: seq<Finding>, extra: seq<Finding>, pr: nat, artifact: Artifact, floor: nat)
    requires DistinctIds(fs)
    ensures DistinctIds(AppendNew(fs, extra, pr, artifact, floor))
  {
  }

  lemma NumberedIsLawful(s: LoopState, pr: nat, extra: seq<Finding>, base: nat, artifact: Artifact)
    requires base >= s.highest && forall f :: f in extra ==> IsUnnumberedBlocker(f)
    ensures forall g :: g in Numbered(extra, base, pr, artifact) ==>
      IsLawful(s, pr, g) && IsMechanical(g) && OpenBlocker(g)
  {
    var more := Numbered(extra, base, pr, artifact);
    forall g | g in more ensures IsLawful(s, pr, g) && IsMechanical(g) && OpenBlocker(g) {
      var k :| 0 <= k < |more| && more[k] == g;
      assert extra[k] in extra;
    }
  }

  lemma KeptIsLawful(s: LoopState, pr: nat, earlier: seq<Finding>, current: seq<Finding>)
    requires forall f :: f in earlier ==> IsMechanical(f) && IsLawful(s, pr, f) && ContinuesSome(s, f)
    requires DistinctIds(earlier)
    ensures LawfulList(s, pr, Kept(earlier, current))
    ensures forall g :: g in Kept(earlier, current) ==> IsMechanical(g) && exists f :: f in earlier && f.id == g.id
  {
    var kept := Kept(earlier, current);
    assert forall k :: 0 <= k < |kept| ==> kept[k].id == earlier[k].id;
    forall g | g in kept
      ensures IsLawful(s, pr, g) && IsMechanical(g) && exists f :: f in earlier && f.id == g.id
    {
      var k :| 0 <= k < |kept| && kept[k] == g;
      var f := earlier[k];
      assert f in earlier && g == Reconciled(f, Titles(current));
      var o :| o in s.findings && Continues(s, o, f);
      if f.status != Ruled {
        assert Continues(s, o, g);
      }
    }
  }

  /** The whole list: the judged part, the earlier blockers re-derived, the new ones numbered. */
  lemma WithMechanicalIsLawful(s: LoopState, pr: nat, base: seq<Finding>, earlier: seq<Finding>,
                               current: seq<Finding>, artifact: Artifact)
    requires LawfulList(s, pr, base)
    requires DistinctIds(earlier)
    requires forall f :: f in earlier ==> IsMechanical(f) && IsLawful(s, pr, f) && ContinuesSome(s, f)
    requires forall f, g :: f in base && g in earlier ==> f.id != g.id
    requires forall f :: f in current ==> IsUnnumberedBlocker(f)
    ensures LawfulList(s, pr, WithMechanical(base, earlier, current, pr, artifact, s.highest))
    ensures forall g :: g in WithMechanical(base, earlier, current, pr, artifact, s.highest) && IsJudged(g) ==>
      g in base
  {
    var kept := Kept(earlier, current);
    KeptIsLawful(s, pr, earlier, current);
    ConcatKeepsIdsDistinct(base, kept);
    var unseen := Unseen(earlier, current);
    AppendKeepsIdsDistinct(base + kept, unseen, pr, artifact, s.highest);
    NumberedIsLawful(s, pr, unseen, Max(Highest(base + kept), s.highest), artifact);
  }

  lemma CappedIsLawful(s: LoopState, pr: nat, fs: seq<Finding>)
    requires LawfulList(s, pr, fs)
    ensures LawfulList(s, pr, Capped(fs))
  {
    DropClosedKeepsIdsDistinct(fs, if |fs| > MAX_FINDINGS then |fs| - MAX_FINDINGS else 0);
  }

  // ---------------------------------------------------------------- every kind of pass

  lemma RulingIsLawful(s: LoopState, pr: nat, f: Finding)
    requires GoodState(s, pr) && f in s.findings
    ensures var g := AfterRulings(f, s.rulings); Continues(s, f, g) && IsLawful(s, pr, g)
  {
  }

  /** Rulings applied to some of the findings on record. */
  lemma RuledIsLawful(s: LoopState, pr: nat, fs: seq<Finding>)
    requires GoodState(s, pr) && DistinctIds(fs) && forall f :: f in fs ==> f in s.findings
    ensures LawfulList(s, pr, ApplyRulings(fs, s.rulings))
    ensures forall g :: g in ApplyRulings(fs, s.rulings) ==> ContinuesSome(s, g)
    ensures (forall f :: f in fs ==> IsMechanical(f)) ==>
      forall g :: g in ApplyRulings(fs, s.rulings) ==> IsMechanical(g)
  {
    var r := ApplyRulings(fs, s.rulings);
    assert forall k :: 0 <= k < |fs| ==> r[k].id == fs[k].id;
    forall g | g in r
      ensures IsLawful(s, pr, g) && ContinuesSome(s, g)
      ensures (forall f :: f in fs ==> IsMechanical(f)) ==> IsMechanical(g)
    {
      var k :| 0 <= k < |r| && r[k] == g;
      assert fs[k] in fs;
      RulingIsLawful(s, pr, fs[k]);
    }
  }

  lemma OnRecordIsLawful(s: LoopState, pr: nat, fs: seq<Finding>)
    requires GoodState(s, pr) && DistinctIds(fs) && forall f :: f in fs ==> f in s.findings
    ensures LawfulList(s, pr, fs) && forall f :: f in fs ==> ContinuesSome(s, f)
  {
  }

  lemma PartsOfListAreDisjoint(s: LoopState, pr: nat, base: seq<Finding>, earlier: seq<Finding>)
    requires GoodState(s, pr)
    requires forall f :: f in base ==> IsLawful(s, pr, f) && IsJudged(f)
    requires forall g :: g in earlier ==> ContinuesSome(s, g) && IsMechanical(g)
    ensures forall f, g :: f in base && g in earlier ==> f.id != g.id
  {
  }

  /** The description's part of a judged pass. */
  lemma MechanicalPartIsLawful(q: Request, s: LoopState, step: Step, judged: seq<Finding>,
                               current: seq<Finding>)
    requires GoodState(s, q.pr)
    requires LawfulList(s, q.pr, judged) && forall g :: g in judged ==> IsJudged(g)
    requires forall f :: f in current ==> IsUnnumberedBlocker(f)
    ensures LawfulList(s, q.pr, WithMechanical(judged, MechanicalOnRecord(s, step), current,
                                               q.pr, q.artifact, s.highest))
    ensures var fs := WithMechanical(judged, MechanicalOnRecord(s, step), current, q.pr, q.artifact, s.highest);
      forall g :: g in fs && IsJudged(g) ==> g in judged
  {
    var onRecord := Filter(IsMechanical, s.findings);
    FilterKeepsIdsDistinct(IsMechanical, s.findings);
    OnRecordIsLawful(s, q.pr, onRecord);
    RuledIsLawful(s, q.pr, onRecord);
    var earlier := MechanicalOnRecord(s, step);
    PartsOfListAreDisjoint(s, q.pr, judged, earlier);
    WithMechanicalIsLawful(s, q.pr, judged, earlier, current, q.artifact);
  }

  lemma GapsAreBlockers(q: Request, s: LoopState, answers: map<Ref, AnswerStatus>, open: seq<Id>)
    ensures forall f :: f in Gaps(q, s, answers, open) ==> IsUnnumberedBlocker(f)
  {
    CurrentAreBlockers(open, q.section, Confirmed(q, s, answers, open));
  }

  lemma FinishedIsLawful(q: Request, s: LoopState, step: Step, sameHead: bool, m: Merged, open: seq<Id>)
    requires GoodState(s, q.pr)
    ensures LawfulList(s, q.pr, FinishedFindings(q, s, step, sameHead, m, open))
  {
    JudgedIsLawful(q, s, step, sameHead, m);
    if q.artifact == Code {
      GapsAreBlockers(q, s, m.answers, open);
      MechanicalPartIsLawful(q, s, step, JudgedFindings(q, s, step, sameHead, m), Gaps(q, s, m.answers, open));
    }
  }

  lemma RecomputedIsLawful(fs: seq<Finding>, q: Request, s: LoopState, open: seq<Id>)
    requires GoodState(s, q.pr) && LawfulList(s, q.pr, fs)
    requires forall f :: f in fs ==> ContinuesSome(s, f)
    ensures LawfulList(s, q.pr, MechanicalRecomputed(fs, q, s, open))
    ensures forall g :: g in MechanicalRecomputed(fs, q, s, open) && IsJudged(g) ==> g in fs
  {
    if q.artifact == Code {
      var base, earlier := Filter(IsJudged, fs), Filter(IsMechanical, fs);
      FilterKeepsIdsDistinct(IsJudged, fs);
      FilterKeepsIdsDistinct(IsMechanical, fs);
      PartsOfListAreDisjoint(s, q.pr, base, earlier);
      GapsAreBlockers(q, s, map[], open);
      WithMechanicalIsLawful(s, q.pr, base, earlier, Gaps(q, s, map[], open), q.artifact);
    }
  }

  /** The whole list a pass builds, before the cap. */
  ghost function Uncapped(q: Request, s: LoopState, open: seq<Id>): seq<Finding> {
    if NextStep(s) == Waiting then MechanicalRecomputed(s.findings, q, s, open)
    else if ClosesWithoutJudge(q, s) then MechanicalRecomputed(ApplyRulings(s.findings, s.rulings), q, s, open)
    else
      var m := Merge(q.judgement, LocationsOf(Filter(IsJudged, s.findings)));
      if m.None? then [] else FinishedFindings(q, s, NextStep(s), SameHead(q, s), m.value, open)
  }

  lemma UncappedIsLawful(q: Request, s: LoopState, open: seq<Id>)
    requires GoodState(s, q.pr)
    ensures LawfulList(s, q.pr, Uncapped(q, s, open))
  {
    if NextStep(s) == Waiting {
      OnRecordIsLawful(s, q.pr, s.findings);
      RecomputedIsLawful(s.findings, q, s, open);
    } else if ClosesWithoutJudge(q, s) {
      RuledIsLawful(s, q.pr, s.findings);
      RecomputedIsLawful(ApplyRulings(s.findings, s.rulings), q, s, open);
    } else {
      var m := Merge(q.judgement, LocationsOf(Filter(IsJudged, s.findings)));
      if m.Some? {
        FinishedIsLawful(q, s, NextStep(s), SameHead(q, s), m.value, open);
      }
    }
  }

  lemma RecordedIsCapped(q: Request, s: LoopState, open: seq<Id>)
    requires Decide(q, s, open).Some?
    ensures Decide(q, s, open).value.findings == Capped(Uncapped(q, s, open))
  {
  }

  /**
   * Whatever the judges, the description and the rulings say, a pass records distinct ids; each
   * finding is one on record, unchanged but for its status and, through a carry_forward ruling,
   * its class, or has an id above every id the pull request ever held.
   */
  lemma PassIsLawful(q: Request, s: LoopState, open: seq<Id>)
    requires GoodState(s, q.pr) && Decide(q, s, open).Some?
    ensures LawfulList(s, q.pr, Decide(q, s, open).value.findings)
  {
    UncappedIsLawful(q, s, open);
    RecordedIsCapped(q, s, open);
    CappedIsLawful(s, q.pr, Uncapped(q, s, open));
  }
}
