/** An approving code verdict accounts for every carry-forward its pass read as open. */
module Accounting {
  import opened Wrappers
  import opened Sequences
  import opened Findings
  import opened Carry
  import opened Rounds
  import opened Admission
  import opened Service
  import opened PassShape

  /** `g` holds `b`'s gap: as an open blocker, or as a gap the operator ruled. */
  predicate HoldsGap(g: Finding, b: Finding) {
    && IsMechanical(g) && g.title == b.title
    && (OpenBlocker(g) || (g.status == Ruled && g.title.NotAddressed?))
  }

  lemma KeptHoldsGap(earlier: seq<Finding>, current: seq<Finding>, b: Finding)
    requires b in current && b.title in Titles(earlier)
    requires forall f :: f in earlier ==> IsMechanical(f) && IsMechanicalShape(f)
    ensures exists g :: g in Kept(earlier, current) && HoldsGap(g, b)
  {
    var f :| f in earlier && f.title == b.title;
    var k :| 0 <= k < |earlier| && earlier[k] == f;
    assert Kept(earlier, current)[k] == Reconciled(f, Titles(current));
    assert HoldsGap(Kept(earlier, current)[k], b);
  }

  lemma NumberedHoldsGap(extra: seq<Finding>, highest: nat, pr: nat, b: Finding)
    requires b in extra && IsUnnumberedBlocker(b)
    ensures exists g :: g in Numbered(extra, highest, pr, Code) && HoldsGap(g, b)
  {
    var k :| 0 <= k < |extra| && extra[k] == b;
    assert HoldsGap(Numbered(extra, highest, pr, Code)[k], b);
  }

  /** A blocker the description earns is open in the pass's list, unless it is a ruled gap. */
  lemma GapIsOpenOrRuled(base: seq<Finding>, earlier: seq<Finding>, current: seq<Finding>,
                         pr: nat, floor: nat, b: Finding)
    requires b in current && IsUnnumberedBlocker(b)
    requires forall f :: f in earlier ==> IsMechanical(f) && IsMechanicalShape(f)
    ensures exists g :: g in WithMechanical(base, earlier, current, pr, Code, floor) && HoldsGap(g, b)
  {
    var kept := Kept(earlier, current);
    if b.title in Titles(earlier) {
      KeptHoldsGap(earlier, current, b);
      var g :| g in kept && HoldsGap(g, b);
      assert g in base + kept;
    } else {
      NumberedHoldsGap(Unseen(earlier, current), Max(Highest(base + kept), floor), pr, b);
    }
  }

  /** With no blocker left open, each open carry-forward is confirmed or deferred. */
  lemma NothingUnaccounted(q: Request, s: LoopState, answers: map<Ref, AnswerStatus>, open: seq<Id>,
                           base: seq<Finding>, earlier: seq<Finding>, i: Id)
    requires forall f :: f in earlier ==> IsMechanical(f) && IsMechanicalShape(f)
    requires Approves(WithMechanical(base, earlier, Gaps(q, s, answers, open), q.pr, Code, s.highest))
    requires i in open
    ensures var fs := WithMechanical(base, earlier, Gaps(q, s, answers, open), q.pr, Code, s.highest);
      i in Confirmed(q, s, answers, open) || i in DeferredIds(open, q.section, fs)
  {
    hide WithMechanical, Confirmed, Claimed, MechanicalBlockers, Unconfirmed, ReasonedDeferrals, DeferredIds;
    var current := Gaps(q, s, answers, open);
    var fs := WithMechanical(base, earlier, current, q.pr, Code, s.highest);
    var gap := GapOf(i, q.section);
    if gap.Some? {
      assert gap.value in MechanicalBlockers(open, q.section);
      assert gap.value in current;
      GapIsOpenOrRuled(base, earlier, current, q.pr, s.highest, gap.value);
    } else if q.section[i].Addressed? && i !in Confirmed(q, s, answers, open) {
      var b := NotAddressedBlocker(i);
      assert b in Unconfirmed(Claimed(open, q.section), Confirmed(q, s, answers, open));
      assert b in current;
      GapIsOpenOrRuled(base, earlier, current, q.pr, s.highest, b);
      var g :| g in fs && HoldsGap(g, b);
      assert IsRuledGap(g);
    } else if q.section[i].Deferred? {
      assert i in ReasonedDeferrals(open, q.section);
    }
  }

  lemma CapKeepsDecision(fs: seq<Finding>)
    ensures Approves(fs) <==> Approves(Capped(fs))
  {
  }

  /** The verdict lists every carry-forward of `open`, and nothing else. */
  predicate AccountsExactly(v: Verdict, open: seq<Id>) {
    && v.accounting.Some?
    && (forall i :: i in open ==> i in v.accounting.value.addressed || i in v.accounting.value.deferred)
    && (forall i :: i in v.accounting.value.addressed ==> i in open)
    && (forall i :: i in v.accounting.value.deferred ==> i in open)
  }

  lemma OnRecordAreShaped(s: LoopState, pr: nat, step: Step)
    requires GoodState(s, pr)
    ensures forall f :: f in MechanicalOnRecord(s, step) ==> IsMechanical(f) && IsMechanicalShape(f)
  {
    var onRecord := Filter(IsMechanical, s.findings);
    FilterKeepsIdsDistinct(IsMechanical, s.findings);
    RuledIsLawful(s, pr, onRecord);
  }

  lemma AllAccounted(q: Request, s: LoopState, answers: map<Ref, AnswerStatus>, open: seq<Id>,
                     base: seq<Finding>, earlier: seq<Finding>, fs: seq<Finding>)
    requires forall f :: f in earlier ==> IsMechanical(f) && IsMechanicalShape(f)
    requires fs == WithMechanical(base, earlier, Gaps(q, s, answers, open), q.pr, Code, s.highest)
    requires Approves(fs)
    ensures forall i :: i in open ==> i in Confirmed(q, s, answers, open) || i in DeferredIds(open, q.section, fs)
    ensures forall i :: i in Confirmed(q, s, answers, open) ==> i in open
    ensures forall i :: i in DeferredIds(open, q.section, fs) ==> i in open
  {
    forall i | i in open
      ensures i in Confirmed(q, s, answers, open) || i in DeferredIds(open, q.section, fs)
    {
      NothingUnaccounted(q, s, answers, open, base, earlier, i);
    }
  }

  lemma JudgedPassAccounts(q: Request, s: LoopState, open: seq<Id>)
    requires GoodState(s, q.pr) && q.artifact == Code && WakesJudge(q, s)
    requires Decide(q, s, open).Some? && Approves(Uncapped(q, s, open))
    ensures AccountsExactly(Decide(q, s, open).value, open)
  {
    hide WithMechanical, Gaps, NextStep, Confirmed, DeferredIds, Approves, Merge, JudgedFindings, MechanicalOnRecord;
    var step := NextStep(s);
    var m := Merge(q.judgement, LocationsOf(Filter(IsJudged, s.findings))).value;
    OnRecordAreShaped(s, q.pr, step);
    AllAccounted(q, s, m.answers, open, JudgedFindings(q, s, step, SameHead(q, s), m),
                 MechanicalOnRecord(s, step), Uncapped(q, s, open));
  }

  lemma ClosureAccounts(q: Request, s: LoopState, open: seq<Id>)
    requires GoodState(s, q.pr) && q.artifact == Code && ClosesWithoutJudge(q, s)
    requires Decide(q, s, open).Some? && Approves(Uncapped(q, s, open))
    ensures AccountsExactly(Decide(q, s, open).value, open)
  {
    hide WithMechanical, Gaps, NextStep, AnyFixRuling, Confirmed, DeferredIds, Approves;
    var ruled := ApplyRulings(s.findings, s.rulings);
    RuledIsLawful(s, q.pr, s.findings);
    AllAccounted(q, s, map[], open, Filter(IsJudged, ruled), Filter(IsMechanical, ruled), Uncapped(q, s, open));
  }

  /** An approving code verdict lists every carry-forward its pass read as open, and no other. */
  lemma ApprovalAccountsForAll(q: Request, s: LoopState, open: seq<Id>)
    requires GoodState(s, q.pr) && q.artifact == Code
    requires Decide(q, s, open).Some? && Decide(q, s, open).value.approve
    ensures AccountsExactly(Decide(q, s, open).value, open)
  {
    ApprovedListHasNoBlocker(q, s, open);
    if WakesJudge(q, s) {
      JudgedPassAccounts(q, s, open);
    } else {
      ClosureAccounts(q, s, open);
    }
  }

  lemma ApprovedListHasNoBlocker(q: Request, s: LoopState, open: seq<Id>)
    requires Decide(q, s, open).Some? && Decide(q, s, open).value.approve
    ensures Approves(Uncapped(q, s, open)) && NextStep(s) != Waiting
  {
    RecordedIsCapped(q, s, open);
    CapKeepsDecision(Uncapped(q, s, open));
  }
}
