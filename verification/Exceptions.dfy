/** Where the review loop does not do what its documentation says, and exactly when. */
module Exceptions {
  import opened Wrappers
  import opened Sequences
  import opened Findings
  import opened Carry
  import opened Rounds
  import opened Admission
  import opened Service
  import opened PassShape
  import opened Blockers
  import opened Accounting

  // ---------------------------------------------------------------- addressed and deferred

  /** A "not addressed" gap on record that the operator ruled carry_forward, or that this closure
      defers. */
  ghost predicate IsRuledBy(s: LoopState, f: Finding, i: Id) {
    IsMechanical(f) && f.title == NotAddressed(i) && (f.status == Ruled || DeferredByRuling(s, f))
  }

  predicate IsRuledGapOf(f: Finding, i: Id) {
    IsRuledGap(f) && f.title.cf == i
  }

  lemma RuledIsKept(earlier: seq<Finding>, current: seq<Finding>, i: Id)
    requires forall f :: f in earlier ==> IsMechanical(f)
    ensures (exists g :: g in Kept(earlier, current) && IsRuledGapOf(g, i)) <==>
      exists f :: f in earlier && IsRuledGapOf(f, i)
  {
    var kept := Kept(earlier, current);
    if f :| f in earlier && IsRuledGapOf(f, i) {
      var k :| 0 <= k < |earlier| && earlier[k] == f;
      assert kept[k] == f && kept[k] in kept;
    }
    if g :| g in kept && IsRuledGapOf(g, i) {
      var k :| 0 <= k < |kept| && kept[k] == g;
      assert earlier[k] in earlier && IsRuledGapOf(earlier[k], i);
    }
  }

  lemma NumberedIsNotRuled(extra: seq<Finding>, highest: nat, pr: nat, artifact: Artifact, i: Id)
    ensures forall g :: g in Numbered(extra, highest, pr, artifact) ==> !IsRuledGapOf(g, i)
  {
  }

  /** Reconciling makes no gap ruled, and unmakes none. */
  lemma RuledInList(base: seq<Finding>, earlier: seq<Finding>, current: seq<Finding>, pr: nat,
                    artifact: Artifact, floor: nat, i: Id)
    requires forall f :: f in base ==> IsJudged(f)
    requires forall f :: f in earlier ==> IsMechanical(f)
    ensures (exists g :: g in WithMechanical(base, earlier, current, pr, artifact, floor) && IsRuledGapOf(g, i)) <==>
      exists f :: f in earlier && IsRuledGapOf(f, i)
  {
    hide Kept, Numbered, Unseen;
    var kept := Kept(earlier, current);
    RuledIsKept(earlier, current, i);
    NumberedIsNotRuled(Unseen(earlier, current), Max(Highest(base + kept), floor), pr, artifact, i);
    assert forall f :: f in base ==> !IsRuledGapOf(f, i);
  }

  /** What the rulings of a closure make of the gaps on record. */
  lemma RuledAtClosure(s: LoopState, i: Id)
    ensures (exists g :: g in Filter(IsMechanical, ApplyRulings(s.findings, s.rulings)) && IsRuledGapOf(g, i)) <==>
      exists f :: f in s.findings && IsRuledOrDeferred(s, f, true, i)
  {
    hide Filter;
    var fs := ApplyRulings(s.findings, s.rulings);
    if f :| f in s.findings && IsRuledOrDeferred(s, f, true, i) {
      AppliedHolds(s.findings, s.rulings, f);
      assert AfterRulings(f, s.rulings) in Filter(IsMechanical, fs) && IsRuledGapOf(AfterRulings(f, s.rulings), i);
    }
    if g :| g in Filter(IsMechanical, fs) && IsRuledGapOf(g, i) {
      var k :| 0 <= k < |fs| && fs[k] == g;
      assert s.findings[k] in s.findings && IsRuledOrDeferred(s, s.findings[k], true, i);
    }
  }

  predicate IsRuledOrDeferred(s: LoopState, f: Finding, closing: bool, i: Id) {
    IsMechanical(f) && f.title == NotAddressed(i) && (f.status == Ruled || (closing && IsDeferredBy(f, s.rulings)))
  }

  lemma RuledOnRecord(s: LoopState, closing: bool, i: Id)
    ensures var fs := if closing then ApplyRulings(s.findings, s.rulings) else s.findings;
      (exists g :: g in Filter(IsMechanical, fs) && IsRuledGapOf(g, i)) <==>
      exists f :: f in s.findings && IsRuledOrDeferred(s, f, closing, i)
  {
    if closing {
      RuledAtClosure(s, i);
    } else {
      assert forall f :: IsRuledOrDeferred(s, f, false, i) <==> IsRuledGapOf(f, i);
    }
  }

  lemma MechanicalAtClosure(s: LoopState)
    ensures forall g :: g in ApplyRulings(Filter(IsMechanical, s.findings), s.rulings) <==>
      g in Filter(IsMechanical, ApplyRulings(s.findings, s.rulings))
  {
    hide Filter, ApplyRulings;
    var onRecord, ruled := Filter(IsMechanical, s.findings), ApplyRulings(s.findings, s.rulings);
    forall g ensures g in ApplyRulings(onRecord, s.rulings) <==> g in Filter(IsMechanical, ruled) {
      if g in ApplyRulings(onRecord, s.rulings) {
        var k :| 0 <= k < |onRecord| && ApplyRulings(onRecord, s.rulings)[k] == g;
        assert onRecord[k] in onRecord;
        AppliedHolds(s.findings, s.rulings, onRecord[k]);
      }
      if g in Filter(IsMechanical, ruled) {
        var k :| 0 <= k < |ruled| && ruled[k] == g;
        assert s.findings[k] in onRecord;
        AppliedHolds(onRecord, s.rulings, s.findings[k]);
      }
    }
  }

  lemma MechanicalAfterRulings(s: LoopState, step: Step)
    ensures forall g :: g in MechanicalOnRecord(s, step) <==>
      g in Filter(IsMechanical, if step == Closing then ApplyRulings(s.findings, s.rulings) else s.findings)
  {
    hide Filter, ApplyRulings;
    MechanicalAtClosure(s);
  }

  /** The gaps ruled in the list of a judged pass. */
  lemma RuledInFinished(q: Request, s: LoopState, m: Merged, open: seq<Id>, i: Id)
    requires GoodState(s, q.pr) && q.artifact == Code
    ensures (exists g :: g in FinishedFindings(q, s, NextStep(s), SameHead(q, s), m, open) && IsRuledGapOf(g, i)) <==>
      exists f :: f in s.findings && IsRuledBy(s, f, i)
  {
    hide JudgedFindings, WithMechanical, MechanicalOnRecord, Gaps, NextStep, GoodState, SameHead, AfterRulings;
    var step := NextStep(s);
    JudgedIsLawful(q, s, step, SameHead(q, s), m);
    MechanicalAfterRulings(s, step);
    RuledInList(JudgedFindings(q, s, step, SameHead(q, s), m), MechanicalOnRecord(s, step), Gaps(q, s, m.answers, open),
                q.pr, q.artifact, s.highest, i);
    RuledOnRecord(s, step == Closing, i);
  }

  /** The gaps ruled in the list of a closure no judge takes part in. */
  lemma RuledInClosure(q: Request, s: LoopState, open: seq<Id>, i: Id)
    requires q.artifact == Code && NextStep(s) == Closing
    ensures var fs := MechanicalRecomputed(ApplyRulings(s.findings, s.rulings), q, s, open);
      (exists g :: g in fs && IsRuledGapOf(g, i)) <==> exists f :: f in s.findings && IsRuledBy(s, f, i)
  {
    hide WithMechanical, Gaps, NextStep, AfterRulings;
    var ruled := ApplyRulings(s.findings, s.rulings);
    RuledInList(Filter(IsJudged, ruled), Filter(IsMechanical, ruled), Gaps(q, s, map[], open),
                q.pr, q.artifact, s.highest, i);
    RuledOnRecord(s, true, i);
  }

  /** The accounting of a recorded verdict, from the answers the pass may use and its whole list. */
  lemma AccountingIs(q: Request, s: LoopState, open: seq<Id>)
    requires Decide(q, s, open).Some? && Decide(q, s, open).value.accounting.Some?
    ensures q.artifact == Code && NextStep(s) != Waiting
    ensures Decide(q, s, open).value.accounting == Some(CarryForwards(
      Confirmed(q, s, UsableAnswers(q, s), open), DeferredIds(open, q.section, Uncapped(q, s, open))))
  {
    hide Merge, FinishedFindings, MechanicalRecomputed, Capped, NextStep, Confirmed, DeferredIds, LocationsOf;
  }

  lemma RuledInRecorded(q: Request, s: LoopState, open: seq<Id>, i: Id)
    requires GoodState(s, q.pr) && q.artifact == Code && NextStep(s) != Waiting && Decide(q, s, open).Some?
    ensures (exists g :: g in Uncapped(q, s, open) && IsRuledGapOf(g, i)) <==>
      exists f :: f in s.findings && IsRuledBy(s, f, i)
  {
    hide Merge, FinishedFindings, MechanicalRecomputed, Capped, NextStep, AccountingOf, IsRuledBy, IsRuledGapOf,
      ApplyRulings, LocationsOf, GoodState;
    if ClosesWithoutJudge(q, s) {
      RuledInClosure(q, s, open, i);
    } else {
      RuledInFinished(q, s, Merge(q.judgement, LocationsOf(Filter(IsJudged, s.findings))).value, open, i);
    }
  }

  /**
   * A recorded verdict lists a carry-forward both as addressed and as deferred exactly when the
   * description claims it, the claim is confirmed, and its "not addressed" gap on record is ruled
   * carry_forward, by an earlier closure or by this one.
   */
  lemma ListedTwiceWhen(q: Request, s: LoopState, open: seq<Id>, i: Id)
    requires GoodState(s, q.pr)
    requires Decide(q, s, open).Some? && Decide(q, s, open).value.accounting.Some?
    ensures var accounting := Decide(q, s, open).value.accounting.value;
      i in accounting.addressed && i in accounting.deferred <==>
        && i in open && i in q.section && q.section[i].Addressed?
        && IsConfirmed(s, i, UsableAnswers(q, s))
        && exists f :: f in s.findings && IsRuledBy(s, f, i)
  {
    AccountingIs(q, s, open);
    RuledInRecorded(q, s, open, i);
    hide Decide, Uncapped, IsRuledBy, IsConfirmed, UsableAnswers, GoodState, NextStep;
    DeferredMeans(open, q.section, Uncapped(q, s, open), i);
    ConfirmedIs(q, s, UsableAnswers(q, s), open, i);
  }

  lemma DeferredMeans(open: seq<Id>, section: Section, fs: seq<Finding>, i: Id)
    ensures i in DeferredIds(open, section, fs) <==>
      && i in open
      && (|| (i in section && section[i].Deferred? && section[i].reason != "")
          || exists g :: g in fs && IsRuledGapOf(g, i))
  {
  }

  lemma ConfirmedIs(q: Request, s: LoopState, answers: map<Ref, AnswerStatus>, open: seq<Id>, i: Id)
    ensures i in Confirmed(q, s, answers, open) <==>
      i in open && i in q.section && q.section[i].Addressed? && IsConfirmed(s, i, answers)
  {
  }

  const CF_ID := Id(1, 1)

  function OpenGap(n: nat): Finding {
    NotAddressedBlocker(CF_ID).(id := Some(Id(2, n)))
  }

  /** A judge's claim an earlier round closed. */
  function ClosedClaim(): Finding {
    Finding(Blocking, Path("f"), Some(1), Said("t"), "e", Some(Id(2, 1)), Some(Blocker), Fixed)
  }

  /** A closure no judge takes part in, of a gap its own ruling defers. */
  ghost predicate IsRuledClosure(q: Request, s: LoopState) {
    && q.artifact == Code && q.pr == 2 && q.section == map[CF_ID := Addressed]
    && s.findings == [ClosedClaim(), OpenGap(2)] && s.awaiting && s.hasFindingsList
    && s.confirmed == {CF_ID} && s.highest == 2
    && s.rulings.Keys == {Id(2, 2)} && s.rulings[Id(2, 2)].kind == RuledCarryForward
    && s.lastJudged.Some? && s.lastJudged.value.sha == q.sha
  }

  lemma RuledClosureIsGood(q: Request, s: LoopState)
    requires IsRuledClosure(q, s)
    ensures GoodState(s, q.pr) && ClosesWithoutJudge(q, s) && DeferredByRuling(s, OpenGap(2))
    ensures UsableAnswers(q, s) == map[]
  {
    hide Merge;
    var gap := s.findings[1];
    assert gap == OpenGap(2) && gap in s.findings && IsRuledIn(s, gap) && OpenBlocker(gap);
    assert forall f :: f in s.findings ==> f == ClosedClaim() || f == OpenGap(2);
    HasMember(Unruled(s));
  }

  /** The closure whose code denies it: the carry-forward an earlier verdict confirmed is claimed
      again, its gap is deferred, and the verdict lists it as addressed and as deferred. */
  lemma ListedTwice(q: Request, s: LoopState)
    requires IsRuledClosure(q, s)
    ensures Decide(q, s, [CF_ID]).Some?
    ensures var accounting := Decide(q, s, [CF_ID]).value.accounting;
      accounting.Some? && CF_ID in accounting.value.addressed && CF_ID in accounting.value.deferred
  {
    RuledClosureIsGood(q, s);
    RuledClosureIsShort(q, s);
    assert s.findings[1] in s.findings && IsRuledBy(s, s.findings[1], CF_ID);
    hide MechanicalRecomputed, UsableAnswers, GoodState, ClosesWithoutJudge, IsRuledBy, NextStep, DeferredIds,
      Confirmed;
    ClosureIsRecorded(q, s, [CF_ID]);
    ListedTwiceWhen(q, s, [CF_ID], CF_ID);
  }

  lemma ClosureIsRecorded(q: Request, s: LoopState, open: seq<Id>)
    requires q.artifact == Code && ClosesWithoutJudge(q, s)
    requires |MechanicalRecomputed(ApplyRulings(s.findings, s.rulings), q, s, open)| <= MAX_FINDINGS
    ensures Decide(q, s, open).Some? && Decide(q, s, open).value.accounting.Some?
  {
    hide MechanicalRecomputed, Merge;
  }

  lemma RuledClosureIsShort(q: Request, s: LoopState)
    requires IsRuledClosure(q, s)
    ensures |MechanicalRecomputed(ApplyRulings(s.findings, s.rulings), q, s, [CF_ID])| <= MAX_FINDINGS
  {
    var ruled := ApplyRulings(s.findings, s.rulings);
    ConfirmedEarnsNoGap(q, s, map[]);
    SplitAll(ruled);
    assert |Unseen(Filter(IsMechanical, ruled), [])| == 0;
  }

  lemma {:induction false} SplitAll(fs: seq<Finding>)
    ensures |Filter(IsJudged, fs)| + |Filter(IsMechanical, fs)| == |fs|
  {
    if fs != [] {
      SplitAll(fs[..|fs| - 1]);
    }
  }

  lemma ConfirmedEarnsNoGap(q: Request, s: LoopState, answers: map<Ref, AnswerStatus>)
    requires q.section == map[CF_ID := Addressed] && IsConfirmed(s, CF_ID, answers)
    ensures Gaps(q, s, answers, [CF_ID]) == []
  {
    var open := [CF_ID];
    assert open[..0] == [];
    assert MechanicalBlockers(open, q.section) == [];
    ConfirmedIs(q, s, answers, open, CF_ID);
    HasMember(Unconfirmed(Claimed(open, q.section), Confirmed(q, s, answers, open)));
  }

  // ---------------------------------------------------------------- nothing left to rule on

  /** Every mechanical finding of the list under this title is ruled, and there is one. */
  predicate IsSettledGap(fs: seq<Finding>, b: Finding) {
    && b.title in Titles(Filter(IsMechanical, fs))
    && forall f :: f in fs && IsMechanical(f) && f.title == b.title ==> f.status == Ruled
  }

  lemma KeptApproves(earlier: seq<Finding>, current: seq<Finding>)
    requires forall f :: f in earlier ==> IsMechanical(f) && IsMechanicalShape(f)
    ensures Approves(Kept(earlier, current)) <==>
      forall f :: f in earlier ==> f.status == Ruled || f.title !in Titles(current)
  {
    var kept := Kept(earlier, current);
    if f :| f in earlier && f.status != Ruled && f.title in Titles(current) {
      var k :| 0 <= k < |earlier| && earlier[k] == f;
      assert kept[k] in kept && OpenBlocker(kept[k]);
    }
    if g :| g in kept && OpenBlocker(g) {
      var k :| 0 <= k < |kept| && kept[k] == g;
      assert earlier[k] in earlier;
    }
  }

  lemma NumberedApproves(extra: seq<Finding>, highest: nat, pr: nat)
    requires forall b :: b in extra ==> IsUnnumberedBlocker(b)
    ensures Approves(Numbered(extra, highest, pr, Code)) <==> extra == []
  {
    if extra != [] {
      var all := Numbered(extra, highest, pr, Code);
      assert extra[0] in extra;
      assert all[0] in all && OpenBlocker(all[0]);
    }
  }

  lemma WithMechanicalApproves(base: seq<Finding>, earlier: seq<Finding>, current: seq<Finding>, pr: nat, floor: nat)
    requires forall f :: f in earlier ==> IsMechanical(f) && IsMechanicalShape(f)
    requires forall b :: b in current ==> IsUnnumberedBlocker(b)
    ensures Approves(WithMechanical(base, earlier, current, pr, Code, floor)) <==>
      && Approves(base)
      && (forall f :: f in earlier ==> f.status == Ruled || f.title !in Titles(current))
      && forall b :: b in current ==> b.title in Titles(earlier)
  {
    hide Kept, Numbered, IsUnnumberedBlocker, OpenBlocker, IsMechanicalShape, Titles;
    var kept, extra := Kept(earlier, current), Unseen(earlier, current);
    KeptApproves(earlier, current);
    NumberedApproves(extra, Max(Highest(base + kept), floor), pr);
    HasMember(extra);
    ApprovesConcat(base, kept);
    ApprovesConcat(base + kept, Numbered(extra, Max(Highest(base + kept), floor), pr, Code));
  }

  lemma ApprovesConcat(a: seq<Finding>, b: seq<Finding>)
    ensures Approves(a + b) <==> Approves(a) && Approves(b)
  {
    hide OpenBlocker;
  }

  lemma JudgedApproves(fs: seq<Finding>)
    ensures Approves(Filter(IsJudged, fs)) <==> forall f :: f in fs && IsJudged(f) ==> !OpenBlocker(f)
  {
  }

  /** Not one gap the description earns is open, by the gaps on record. */
  lemma GapsAreSettled(fs: seq<Finding>, current: seq<Finding>)
    ensures (forall b :: b in current ==> IsSettledGap(fs, b)) <==>
      && (forall f :: f in Filter(IsMechanical, fs) ==> f.status == Ruled || f.title !in Titles(current))
      && (forall b :: b in current ==> b.title in Titles(Filter(IsMechanical, fs)))
  {
    if forall b :: b in current ==> IsSettledGap(fs, b) {
      forall f | f in Filter(IsMechanical, fs) && f.title in Titles(current) ensures f.status == Ruled {
        var b :| b in current && b.title == f.title;
        assert IsSettledGap(fs, b);
      }
    }
    if (forall f :: f in Filter(IsMechanical, fs) ==> f.status == Ruled || f.title !in Titles(current))
       && forall b :: b in current ==> b.title in Titles(Filter(IsMechanical, fs))
    {
      forall b | b in current ensures IsSettledGap(fs, b) {
        assert b.title in Titles(current);
      }
    }
  }

  lemma RecordIsShaped(s: LoopState, pr: nat)
    requires GoodState(s, pr)
    ensures forall f :: f in Filter(IsMechanical, s.findings) ==> IsMechanical(f) && IsMechanicalShape(f)
  {
  }

  lemma AwaitedList(q: Request, s: LoopState, open: seq<Id>)
    requires NextStep(s) == Waiting && Decide(q, s, open).Some?
    ensures Approves(Decide(q, s, open).value.findings) <==> Approves(MechanicalRecomputed(s.findings, q, s, open))
    ensures exists f :: f in s.findings && OpenBlocker(f)
  {
    hide MechanicalRecomputed, Capped;
    CapKeepsDecision(MechanicalRecomputed(s.findings, q, s, open));
    HasMember(Unruled(s));
  }

  /**
   * While a ruling is awaited, the verdict holds no open blocker exactly when the pull request is
   * code, no judged blocker is open, and the description earns no gap but those ruled already.
   */
  lemma AwaitsWithoutBlockerWhen(q: Request, s: LoopState, open: seq<Id>)
    requires GoodState(s, q.pr) && NextStep(s) == Waiting && Decide(q, s, open).Some?
    ensures Approves(Decide(q, s, open).value.findings) <==>
      && q.artifact == Code
      && (forall f :: f in s.findings && IsJudged(f) ==> !OpenBlocker(f))
      && forall b :: b in Gaps(q, s, map[], open) ==> IsSettledGap(s.findings, b)
  {
    hide Decide, IsSettledGap, Gaps, WithMechanical, OpenBlocker, IsUnnumberedBlocker, NextStep, IsMechanicalShape;
    AwaitedList(q, s, open);
    if q.artifact == Code {
      var current := Gaps(q, s, map[], open);
      GapsAreBlockers(q, s, map[], open);
      RecordIsShaped(s, q.pr);
      WithMechanicalApproves(Filter(IsJudged, s.findings), Filter(IsMechanical, s.findings), current, q.pr, s.highest);
      JudgedApproves(s.findings);
      GapsAreSettled(s.findings, current);
    }
  }

  /** The description resolves the last gap while its ruling is awaited: no blocker is open in
      the verdict, and it still asks for changes. */
  lemma NothingLeftToRule(q: Request, s: LoopState)
    requires q.artifact == Code && q.section == map[CF_ID := Deferred("later")]
    requires s.awaiting && s.findings == [OpenGap(1)] && s.rulings == map[] && s.confirmed == {}
    ensures Decide(q, s, [CF_ID]).Some?
    ensures var v := Decide(q, s, [CF_ID]).value;
      !v.approve && forall f :: f in v.findings ==> !OpenBlocker(f)
  {
    hide MechanicalRecomputed;
    var gap := OpenGap(1);
    assert gap in s.findings && NeedsRuling(s, gap);
    assert gap in Unruled(s);
    RecomputedIsFixed(q, s);
    var fixed := [gap.(status := Fixed)];
    assert Capped(fixed) == fixed;
  }

  lemma RecomputedIsFixed(q: Request, s: LoopState)
    requires q.artifact == Code && q.section == map[CF_ID := Deferred("later")]
    requires s.findings == [OpenGap(1)] && s.confirmed == {}
    ensures MechanicalRecomputed(s.findings, q, s, [CF_ID]) == [OpenGap(1).(status := Fixed)]
  {
    hide Gaps, Kept, Unseen, Filter, AppendNew;
    OneGap(s.findings);
    NoGapEarned(q, s);
    GapIsFixed(q, s);
  }

  lemma OneGap(fs: seq<Finding>)
    requires fs == [OpenGap(1)]
    ensures Filter(IsJudged, fs) == [] && Filter(IsMechanical, fs) == fs
  {
  }

  lemma GapIsKept(gap: Finding)
    requires gap == OpenGap(1)
    ensures Kept([gap], []) == [gap.(status := Fixed)]
  {
    assert Titles([]) == {};
  }

  lemma NothingAppended(fs: seq<Finding>, pr: nat, floor: nat)
    ensures AppendNew(fs, [], pr, Code, floor) == fs
  {
    hide Highest, Max;
  }

  lemma NothingUnseen(gap: Finding)
    ensures Unseen([gap], []) == []
  {
    hide Titles;
  }

  lemma GapIsFixed(q: Request, s: LoopState)
    ensures var gap := OpenGap(1);
      AppendNew([] + Kept([gap], []), Unseen([gap], []), q.pr, Code, s.highest) == [gap.(status := Fixed)]
  {
    hide AppendNew, Kept, Unseen, OpenGap;
    var gap := OpenGap(1);
    GapIsKept(gap);
    NothingUnseen(gap);
    assert [] + [gap.(status := Fixed)] == [gap.(status := Fixed)];
    NothingAppended([gap.(status := Fixed)], q.pr, s.highest);
  }

  lemma NoGapEarned(q: Request, s: LoopState)
    requires q.section == map[CF_ID := Deferred("later")]
    ensures Gaps(q, s, map[], [CF_ID]) == []
  {
    var open := [CF_ID];
    assert open[..0] == [];
    assert "later" != "" by {
      assert |"later"| == 5;
    }
    assert GapOf(CF_ID, q.section) == None;
    assert MechanicalBlockers(open, q.section) == MechanicalBlockers([], q.section) + [];
    assert Claimed(open, q.section) == [] by {
      FilterSnoc(i => i in q.section && q.section[i].Addressed?, [], CF_ID);
      assert [] + [CF_ID] == open;
    }
  }

  // ---------------------------------------------------------------- a closure without a judge

  /** The gap is ruled once the rulings of a closure apply: on record under its title there are
      only gaps ruled before, or deferred by these, and there is one. */
  predicate IsSettledByRulings(s: LoopState, b: Finding) {
    && b.title in Titles(Filter(IsMechanical, s.findings))
    && forall f :: f in s.findings && IsMechanical(f) && f.title == b.title ==>
         f.status == Ruled || IsDeferredBy(f, s.rulings)
  }

  lemma SettledByRulings(s: LoopState, b: Finding)
    ensures IsSettledGap(ApplyRulings(s.findings, s.rulings), b) <==> IsSettledByRulings(s, b)
  {
    hide Filter;
    var fs, r := s.findings, ApplyRulings(s.findings, s.rulings);
    assert forall k :: 0 <= k < |fs| ==> r[k].title == fs[k].title && IsMechanical(r[k]) == IsMechanical(fs[k]);
    if f :| f in fs && IsMechanical(f) && f.title == b.title {
      AppliedHolds(fs, s.rulings, f);
    }
    forall f | f in fs ensures AfterRulings(f, s.rulings) in r {
      AppliedHolds(fs, s.rulings, f);
    }
    forall g | g in r ensures exists f :: f in fs && g == AfterRulings(f, s.rulings) {
      var k :| 0 <= k < |r| && r[k] == g;
      assert fs[k] in fs;
    }
  }

  /** Where nothing needs a fix, what a closure leaves open is what the description alone decides. */
  lemma RuledLeavesBodyDerived(q: Request, s: LoopState, f: Finding)
    requires GoodState(s, q.pr) && ClosesWithoutJudge(q, s) && f in s.findings
    ensures OpenBlocker(AfterRulings(f, s.rulings)) <==> OpenBlocker(f) && IsBodyDerived(f)
  {
    assert Unruled(s) == [];
  }

  lemma RuledApproves(q: Request, s: LoopState)
    requires GoodState(s, q.pr) && ClosesWithoutJudge(q, s)
    ensures var r := ApplyRulings(s.findings, s.rulings);
      && Approves(Filter(IsJudged, r))
      && (Approves(r) <==> forall f :: f in s.findings && OpenBlocker(f) ==> !IsBodyDerived(f))
  {
    hide Filter, GoodState, ClosesWithoutJudge, OpenBlocker, IsBodyDerived;
    var r := ApplyRulings(s.findings, s.rulings);
    forall k | 0 <= k < |r| ensures OpenBlocker(r[k]) <==> OpenBlocker(s.findings[k]) && IsBodyDerived(s.findings[k]) {
      RuledLeavesBodyDerived(q, s, s.findings[k]);
    }
    forall f | f in r && OpenBlocker(f) ensures !IsJudged(f) {
      var k :| 0 <= k < |r| && r[k] == f;
      BodyDerivedIsMechanical(s.findings[k], s.rulings);
    }
    if f :| f in s.findings && OpenBlocker(f) && IsBodyDerived(f) {
      var k :| 0 <= k < |r| && s.findings[k] == f;
      assert r[k] in r;
    }
  }

  lemma BodyDerivedIsMechanical(f: Finding, rulings: map<Id, Ruling>)
    ensures IsBodyDerived(f) ==> IsMechanical(AfterRulings(f, rulings))
  {
  }

  lemma RuledIsShaped(s: LoopState, pr: nat)
    requires GoodState(s, pr)
    ensures forall f :: f in Filter(IsMechanical, ApplyRulings(s.findings, s.rulings)) ==>
      IsMechanical(f) && IsMechanicalShape(f)
  {
    RuledIsLawful(s, pr, s.findings);
  }

  lemma ClosedList(q: Request, s: LoopState, open: seq<Id>)
    requires ClosesWithoutJudge(q, s) && Decide(q, s, open).Some?
    ensures Decide(q, s, open).value.approve <==>
      Approves(MechanicalRecomputed(ApplyRulings(s.findings, s.rulings), q, s, open))
  {
    hide MechanicalRecomputed, Capped, AccountingOf;
    CapKeepsDecision(MechanicalRecomputed(ApplyRulings(s.findings, s.rulings), q, s, open));
  }

  /**
   * A closure no judge takes part in, every blocker that needs a ruling deferred by one: on code it
   * approves exactly when each gap the description earns is ruled by then; elsewhere exactly when
   * no blocker on record is the description's alone.
   */
  lemma ClosureApprovesWhen(q: Request, s: LoopState, open: seq<Id>)
    requires GoodState(s, q.pr) && ClosesWithoutJudge(q, s) && Decide(q, s, open).Some?
    ensures Decide(q, s, open).value.approve <==>
      if q.artifact == Code then forall b :: b in Gaps(q, s, map[], open) ==> IsSettledByRulings(s, b)
      else forall f :: f in s.findings && OpenBlocker(f) ==> !IsBodyDerived(f)
  {
    hide Decide, IsSettledGap, IsSettledByRulings, Gaps, WithMechanical, OpenBlocker, IsUnnumberedBlocker,
      IsMechanicalShape, GoodState, ClosesWithoutJudge, IsBodyDerived, Filter, Approves;
    ClosedList(q, s, open);
    RuledApproves(q, s);
    if q.artifact == Code {
      var current, r := Gaps(q, s, map[], open), ApplyRulings(s.findings, s.rulings);
      GapsAreBlockers(q, s, map[], open);
      RuledIsShaped(s, q.pr);
      WithMechanicalApproves(Filter(IsJudged, r), Filter(IsMechanical, r), current, q.pr, s.highest);
      GapsAreSettled(r, current);
      forall b | b in current ensures IsSettledGap(r, b) <==> IsSettledByRulings(s, b) {
        SettledByRulings(s, b);
      }
    }
  }
}
