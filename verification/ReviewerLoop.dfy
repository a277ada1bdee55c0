/** The review loop over its append-only ledger (src/rail/reviewer/service.py). */
module ReviewerLoop {
  import opened Wrappers
  import opened Sequences
  import opened Findings
  import opened Carry
  import opened Rounds
  import opened Admission
  import opened Service
  import opened Runs
  import RoundsLoops
  import ServiceLoops

  /** The blockers the description earns, given the answers of the judges. */
  method CurrentGaps(q: Request, s: LoopState, answers: map<Ref, AnswerStatus>, open: seq<Id>)
    returns (current: seq<Finding>)
    ensures current == Gaps(q, s, answers, open)
  {
    hide Claimed, Confirmed, Carry.MechanicalBlockers, Unconfirmed;
    var claimed := Claimed(open, q.section);
    var gaps := ServiceLoops.FindGaps(open, q.section);
    return gaps + Unconfirmed(claimed, Confirmed(q, s, answers, open));
  }

  /** `_mechanical_recomputed`. */
  method Recompute(fs: seq<Finding>, q: Request, s: LoopState, open: seq<Id>) returns (out: seq<Finding>)
    ensures out == MechanicalRecomputed(fs, q, s, open)
  {
    hide Gaps, Kept, Unseen, Filter, AppendNew;
    if q.artifact != Code {
      return fs;
    }
    var current := CurrentGaps(q, s, map[], open);
    var onRecord := Filter(IsMechanical, fs);
    out := RoundsLoops.AppendFindings(Filter(IsJudged, fs) + Kept(onRecord, current), Unseen(onRecord, current),
                                      q.pr, q.artifact, s.highest);
  }

  /** `_finish`. */
  method FinishPass(q: Request, s: LoopState, step: Step, sameHead: bool, m: Merged, open: seq<Id>)
    returns (d: Draft)
    ensures d == Finish(q, s, step, sameHead, m, open)
  {
    hide Gaps, Kept, Unseen, Filter, AppendNew, Assign, Classified, Limited, Capped,
      AccountingOf, MechanicalOnRecord, Ids;
    var judged := Filter(IsJudged, s.findings);
    var numbered := RoundsLoops.AssignFindings(
      Classified(m.findings, q.artifact), m.answers, judged, q.pr, q.artifact, s.highest);
    var findings := Limited(q, s, step, sameHead, Ids(judged), numbered);
    if q.artifact == Code {
      var current := CurrentGaps(q, s, m.answers, open);
      var onRecord := MechanicalOnRecord(s, step);
      findings := RoundsLoops.AppendFindings(findings + Kept(onRecord, current), Unseen(onRecord, current),
                                             q.pr, q.artifact, s.highest);
    }
    return Draft(Capped(findings), AccountingOf(q, s, m.answers, open, findings));
  }

  /** `_review_started`: awaits a ruling, closes without a judge, or judges. */
  method DecidePass(q: Request, s: LoopState, open: seq<Id>) returns (v: Option<Verdict>)
    requires DistinctIds(s.findings)
    ensures v == Decide(q, s, open)
  {
    hide MechanicalRecomputed, Capped, ApplyRulings, AccountingOf, Finish, Merge, NextStep, LocationsOf, Filter,
      DistinctIds, AnyFixRuling, Recorded;
    var step := NextStep(s);
    if step == Waiting {
      var findings := Recompute(s.findings, q, s, open);
      var d := Draft(Capped(findings), None);
      return if |d.findings| > MAX_FINDINGS then None else Some(Recorded(q, step, d));
    }
    var sameHead := s.lastJudged.Some? && s.lastJudged.value.sha == q.sha;
    if step == Closing && !AnyFixRuling(s) && sameHead {
      var findings := Recompute(ApplyRulings(s.findings, s.rulings), q, s, open);
      var d := Draft(Capped(findings), AccountingOf(q, s, map[], open, findings));
      return if |d.findings| > MAX_FINDINGS then None else Some(Recorded(q, step, d));
    }
    FilterKeepsIdsDistinct(IsJudged, s.findings);
    var known := ServiceLoops.CollectLocations(Filter(IsJudged, s.findings));
    var m := ServiceLoops.MergeReplies(q.judgement, known);
    if m.None? {
      return None;
    }
    var d := FinishPass(q, s, step, sameHead, m.value, open);
    return Some(Recorded(q, step, d));
  }

  class Reviewer {
    var verdicts: seq<Verdict>
    var rulings: seq<Ruling>

    ghost function Ledger(): World
      reads this
    {
      World(verdicts, rulings)
    }

    ghost predicate Valid()
      reads this
    {
      Inv(Ledger())
    }

    constructor ()
      ensures Valid() && Ledger() == World([], [])
    {
      verdicts, rulings := [], [];
    }

    /** One pass: the loop is rebuilt from the ledger as it stood when the pass read it, and at
        most one verdict is appended. */
    method Pass(q: Request) returns (v: Option<Verdict>)
      requires Valid() && Enabled(Ledger(), Event.Pass(q))
      modifies this`verdicts
      ensures Valid() && Ledger() == Next(old(Ledger()), Event.Pass(q))
      ensures v == Review(q, old(verdicts), rulings)
    {
      hide VerdictsOf, RulingsOf, RulingsBefore, Decide, StateOf, OpenList, DistinctIds, Inv;
      var read := RulingsBefore(rulings, q.readAt);
      StatesAreDistinct(q, read);
      var s := RoundsLoops.RebuildState(VerdictsOf(verdicts, q.repo, q.pr), RulingsOf(read, q.repo, q.pr));
      var open: seq<Id> := [];
      if q.artifact == Code {
        open := RoundsLoops.OpenCarryForwards(verdicts, read, q.repo, Some(q.pr));
      }
      v := DecidePass(q, s, open);
      PassKeepsInv(Ledger(), q);
      if v.Some? {
        verdicts := verdicts + [v.value];
      }
    }

    lemma StatesAreDistinct(q: Request, read: seq<Ruling>)
      requires Valid() && read == RulingsBefore(rulings, q.readAt)
      ensures DistinctIds(StateFor(verdicts, read, q.repo, q.pr).findings)
    {
      LatestIsIn(Ledger(), q.repo, q.pr, read);
    }

    /** The operator rules on a finding the loop waits for. */
    method Rule(r: Ruling)
      requires Valid() && Enabled(Ledger(), Event.Rule(r))
      modifies this`rulings
      ensures Valid() && Ledger() == Next(old(Ledger()), Event.Rule(r))
    {
      hide Inv;
      RuleKeepsInv(Ledger(), r);
      rulings := rulings + [r];
    }

    /** `carry_review`: an approving verdict copied to another head. */
    method CarryOver(source: nat, sha: string, check: int, at: int)
      requires Valid() && Enabled(Ledger(), Event.CarryOver(source, sha, check, at))
      modifies this`verdicts
      ensures Valid() && Ledger() == Next(old(Ledger()), Event.CarryOver(source, sha, check, at))
    {
      hide Inv;
      CarryKeepsInv(Ledger(), source, sha, check, at);
      var v := verdicts[source];
      var origin := Source(v.sha, v.check);
      verdicts := verdicts + [v.(sha := sha, check := check, carried := Some(origin), at := at, readAt := at)];
    }
  }
}
