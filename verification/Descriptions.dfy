/** What the description of a code pull request owes, and how that blocks
    (src/rail/reviewer/carry.py, service.py). */
module Descriptions {
  import opened Wrappers
  import opened Sequences
  import opened Findings
  import opened Carry
  import opened Rounds
  import opened Admission
  import opened Service
  import opened PassShape
  import opened Blockers
  import opened Runs
  import Exceptions
  import Promises

  /** No reply of the pass says the carry-forward is still open, and one says it is fixed or an
      earlier verdict recorded that. */
  ghost predicate IsTaken(q: Request, s: LoopState, i: Id) {
    && !Promises.CfAnswered(q, s, i, AnsweredOpen)
    && (Promises.CfAnswered(q, s, i, AnsweredFixed) || i in s.confirmed)
  }

  /** What the description leaves unaccounted for: an open carry-forward it does not list on one
      line, one it defers without a reason, or one it claims and no judge confirms. */
  ghost predicate Owes(q: Request, s: LoopState, open: seq<Id>, t: Title) {
    match t
    case Said(_) => false
    case NotAccounted(i) => i in open && i !in q.section
    case DeferredNoReason(i) => i in open && i in q.section && q.section[i] == Deferred("")
    case NotAddressed(i) => i in open && i in q.section && q.section[i] == Addressed && !IsTaken(q, s, i)
  }

  lemma UsableMeans(q: Request, s: LoopState, open: seq<Id>)
    requires Decide(q, s, open).Some?
    ensures UsableAnswers(q, s) == if WakesJudge(q, s) then MergedAnswers(HeardAll(q, s)) else map[]
  {
    hide MergedAnswers, HeardVerdicts, Finish, Await, Close, NextStep, LocationsOf, Capped, MergedFindings;
  }

  /** What the form of the description alone leaves out. */
  predicate IsUnlisted(open: seq<Id>, section: Section, t: Title) {
    || (t.NotAccounted? && t.cf in open && t.cf !in section)
    || (t.DeferredNoReason? && t.cf in open && t.cf in section && section[t.cf] == Deferred(""))
  }

  lemma TitleOfGap(open: seq<Id>, section: Section, confirmed: seq<Id>, t: Title)
    ensures t in Titles(CurrentBlockers(open, section, confirmed)) <==>
      || IsUnlisted(open, section, t)
      || (t.NotAddressed? && t.cf in open && t.cf in section && section[t.cf] == Addressed && t.cf !in confirmed)
  {
    hide MechanicalBlockers, Unconfirmed, Claimed;
    var a, b := MechanicalBlockers(open, section), Unconfirmed(Claimed(open, section), confirmed);
    assert t in Titles(a + b) <==> t in Titles(a) || t in Titles(b);
    TitleOfShape(open, section, t);
    TitleOfClaim(open, section, confirmed, t);
  }

  lemma TitleOfShape(open: seq<Id>, section: Section, t: Title)
    ensures t in Titles(MechanicalBlockers(open, section)) <==> IsUnlisted(open, section, t)
  {
    match t
    case NotAccounted(i) =>
      if i in open && i !in section {
        assert GapOf(i, section) == Some(NotAccountedBlocker(i));
        assert NotAccountedBlocker(i) in MechanicalBlockers(open, section);
      }
    case DeferredNoReason(i) =>
      if i in open && i in section && section[i] == Deferred("") {
        assert GapOf(i, section) == Some(DeferredNoReasonBlocker(i));
        assert DeferredNoReasonBlocker(i) in MechanicalBlockers(open, section);
      }
    case _ =>
  }

  lemma TitleOfClaim(open: seq<Id>, section: Section, confirmed: seq<Id>, t: Title)
    ensures t in Titles(Unconfirmed(Claimed(open, section), confirmed)) <==>
      t.NotAddressed? && t.cf in open && t.cf in section && section[t.cf] == Addressed && t.cf !in confirmed
  {
    if t.NotAddressed? && t.cf in Claimed(open, section) && t.cf !in confirmed {
      assert NotAddressedBlocker(t.cf) in Unconfirmed(Claimed(open, section), confirmed);
    }
  }

  /** The blockers a pass derives from the description are exactly what it owes. */
  lemma OwesMeans(q: Request, s: LoopState, open: seq<Id>, t: Title)
    requires Decide(q, s, open).Some?
    ensures t in Titles(Gaps(q, s, UsableAnswers(q, s), open)) <==> Owes(q, s, open, t)
  {
    hide Decide, UsableAnswers, CurrentBlockers, IsConfirmed, HeardAll, MergedAnswers, WakesJudge, Promises.CfAnswered;
    var answers := UsableAnswers(q, s);
    UsableMeans(q, s, open);
    TitleOfGap(open, q.section, Confirmed(q, s, answers, open), t);
    if t.NotAddressed? {
      Promises.ConfirmedMeans(q, s, answers, t.cf);
      Exceptions.ConfirmedIs(q, s, answers, open, t.cf);
    }
  }

  /** An open blocker on the description, under this title. */
  predicate BlocksUnder(fs: seq<Finding>, t: Title) {
    exists f :: f in fs && f.file == Description && f.title == t && OpenBlocker(f)
  }

  /** A gap under this title that no ruling has taken out of the description's hands. */
  predicate IsUnruledGap(f: Finding, t: Title) {
    IsMechanical(f) && f.title == t && f.status != Ruled
  }

  lemma BlocksInKept(earlier: seq<Finding>, current: seq<Finding>, t: Title)
    requires forall f :: f in earlier ==> IsMechanical(f) && IsMechanicalShape(f)
    ensures BlocksUnder(Kept(earlier, current), t) <==>
      t in Titles(current) && exists f :: f in earlier && IsUnruledGap(f, t)
  {
    var kept := Kept(earlier, current);
    if g :| g in kept && IsMechanical(g) && g.title == t && OpenBlocker(g) {
      var k :| 0 <= k < |kept| && kept[k] == g;
      assert earlier[k] in earlier && IsUnruledGap(earlier[k], t);
    }
    if t in Titles(current) {
      if f :| f in earlier && IsUnruledGap(f, t) {
        var k :| 0 <= k < |earlier| && earlier[k] == f;
        assert kept[k] in kept && OpenBlocker(kept[k]);
      }
    }
  }

  lemma BlocksInNumbered(extra: seq<Finding>, highest: nat, pr: nat, artifact: Artifact, t: Title)
    requires forall f :: f in extra ==> IsUnnumberedBlocker(f)
    ensures BlocksUnder(Numbered(extra, highest, pr, artifact), t) <==> t in Titles(extra)
  {
    var r := Numbered(extra, highest, pr, artifact);
    if g :| g in r && IsMechanical(g) && g.title == t && OpenBlocker(g) {
      var k :| 0 <= k < |r| && r[k] == g;
      assert extra[k] in extra;
    }
    if f :| f in extra && f.title == t {
      var k :| 0 <= k < |extra| && extra[k] == f;
      assert r[k] in r && OpenBlocker(r[k]);
    }
  }

  lemma BlocksInConcat(a: seq<Finding>, b: seq<Finding>, t: Title)
    ensures BlocksUnder(a + b, t) <==> BlocksUnder(a, t) || BlocksUnder(b, t)
  {
    hide OpenBlocker;
  }

  lemma BlocksInList(base: seq<Finding>, earlier: seq<Finding>, current: seq<Finding>, pr: nat, artifact: Artifact,
                     floor: nat, t: Title)
    requires forall f :: f in base ==> IsJudged(f)
    requires forall f :: f in earlier ==> IsMechanical(f) && IsMechanicalShape(f)
    requires forall f :: f in current ==> IsUnnumberedBlocker(f)
    ensures BlocksUnder(WithMechanical(base, earlier, current, pr, artifact, floor), t) <==>
      && t in Titles(current)
      && (t !in Titles(earlier) || exists f :: f in earlier && IsUnruledGap(f, t))
  {
    hide Kept, Numbered, IsUnnumberedBlocker, OpenBlocker, IsMechanicalShape;
    var kept, extra := Kept(earlier, current), Unseen(earlier, current);
    var highest := Max(Highest(base + kept), floor);
    BlocksInKept(earlier, current, t);
    BlocksInNumbered(extra, highest, pr, artifact, t);
    BlocksInConcat(base, kept, t);
    BlocksInConcat(base + kept, Numbered(extra, highest, pr, artifact), t);
    assert t in Titles(extra) <==> t in Titles(current) && t !in Titles(earlier);
  }

  /** The mechanical findings a pass starts from, the rulings of a closure applied. */
  function OnRecord(s: LoopState): seq<Finding> {
    Filter(IsMechanical, if NextStep(s) == Closing then ApplyRulings(s.findings, s.rulings) else s.findings)
  }

  /** The whole list of a pass on code: the judged findings, and what the description earns. */
  lemma ListParts(q: Request, s: LoopState, open: seq<Id>) returns (base: seq<Finding>, earlier: seq<Finding>)
    requires GoodState(s, q.pr) && Decide(q, s, open).Some? && q.artifact == Code
    ensures Uncapped(q, s, open) ==
      WithMechanical(base, earlier, Gaps(q, s, UsableAnswers(q, s), open), q.pr, Code, s.highest)
    ensures forall f :: f in base ==> IsJudged(f)
    ensures forall f :: f in earlier <==> f in OnRecord(s)
  {
    hide Merge, JudgedFindings, WithMechanical, MechanicalOnRecord, Gaps, NextStep, GoodState, SameHead, ApplyRulings,
      Capped, AccountingOf, LocationsOf, AnyFixRuling, OnRecord;
    if WakesJudge(q, s) {
      var m := Merge(q.judgement, Known(s)).value;
      base := JudgedFindings(q, s, NextStep(s), SameHead(q, s), m);
      earlier := MechanicalOnRecord(s, NextStep(s));
      JudgedIsLawful(q, s, NextStep(s), SameHead(q, s), m);
    } else {
      var fs := if NextStep(s) == Closing then ApplyRulings(s.findings, s.rulings) else s.findings;
      base, earlier := Filter(IsJudged, fs), Filter(IsMechanical, fs);
    }
    RecordParts(s, earlier);
  }

  lemma RecordParts(s: LoopState, earlier: seq<Finding>)
    requires || earlier == MechanicalOnRecord(s, NextStep(s))
             || earlier == Filter(IsMechanical, if NextStep(s) == Closing then ApplyRulings(s.findings, s.rulings)
                                                else s.findings)
    ensures forall f :: f in earlier <==> f in OnRecord(s)
  {
    hide NextStep, ApplyRulings, Filter, MechanicalOnRecord;
    Exceptions.MechanicalAfterRulings(s, NextStep(s));
  }

  /** A finding on record, the ruling of a closure applied. */
  function Started(s: LoopState, f: Finding): Finding {
    if NextStep(s) == Closing then AfterRulings(f, s.rulings) else f
  }

  lemma StartedMeans(s: LoopState, f: Finding, t: Title)
    ensures IsMechanical(Started(s, f)) == IsMechanical(f) && Started(s, f).title == f.title
    ensures IsUnruledGap(Started(s, f), t) <==> IsUnruledGap(f, t) && !DeferredByRuling(s, f)
  {
    hide NextStep;
  }

  lemma OnRecordHolds(s: LoopState, g: Finding)
    ensures g in OnRecord(s) <==> exists f :: f in s.findings && IsMechanical(f) && g == Started(s, f)
  {
    hide NextStep, AfterRulings;
    var fs := if NextStep(s) == Closing then ApplyRulings(s.findings, s.rulings) else s.findings;
    if g in OnRecord(s) {
      var k :| 0 <= k < |fs| && fs[k] == g;
      StartedMeans(s, s.findings[k], g.title);
      assert s.findings[k] in s.findings;
    }
    if f :| f in s.findings && IsMechanical(f) && g == Started(s, f) {
      var k :| 0 <= k < |fs| && s.findings[k] == f;
      StartedMeans(s, f, g.title);
      assert fs[k] == g && fs[k] in fs;
    }
  }

  lemma OnRecordMeans(s: LoopState, t: Title)
    ensures t in Titles(OnRecord(s)) <==> exists f :: f in s.findings && IsMechanical(f) && f.title == t
    ensures (exists f :: f in OnRecord(s) && IsUnruledGap(f, t)) <==>
      exists f :: f in s.findings && IsUnruledGap(f, t) && !DeferredByRuling(s, f)
  {
    hide OnRecord, Started, DeferredByRuling, IsUnruledGap;
    forall g ensures g in OnRecord(s) <==> exists f :: f in s.findings && IsMechanical(f) && g == Started(s, f) {
      OnRecordHolds(s, g);
    }
    forall f ensures IsMechanical(Started(s, f)) == IsMechanical(f) && Started(s, f).title == f.title {
      StartedMeans(s, f, t);
    }
    forall f ensures IsUnruledGap(Started(s, f), t) <==> IsUnruledGap(f, t) && !DeferredByRuling(s, f) {
      StartedMeans(s, f, t);
    }
    UnruledIsMechanical(t);
  }

  lemma UnruledIsMechanical(t: Title)
    ensures forall f :: IsUnruledGap(f, t) ==> IsMechanical(f)
  {
  }

  lemma OnRecordIsShaped(s: LoopState, pr: nat)
    requires GoodState(s, pr)
    ensures forall f :: f in OnRecord(s) ==> IsMechanical(f) && IsMechanicalShape(f)
  {
    hide NextStep;
    Exceptions.RecordIsShaped(s, pr);
    RuledIsLawful(s, pr, s.findings);
  }

  lemma CapKeepsBlocks(fs: seq<Finding>, t: Title)
    ensures BlocksUnder(Capped(fs), t) <==> BlocksUnder(fs, t)
  {
    hide Capped;
  }

  /**
   * What the description owes blocks, and nothing else of it does: a verdict on code holds an open
   * blocker under a title exactly when the description owes it and no ruling took it out of its
   * hands, as far as one is on record.
   */
  lemma DescriptionBlocksWhen(q: Request, s: LoopState, open: seq<Id>, t: Title)
    requires GoodState(s, q.pr) && Decide(q, s, open).Some? && q.artifact == Code
    ensures BlocksUnder(Decide(q, s, open).value.findings, t) <==>
      && Owes(q, s, open, t)
      && ((forall f :: f in s.findings && f.file == Description ==> f.title != t)
          || exists f :: f in s.findings && IsUnruledGap(f, t) && !DeferredByRuling(s, f))
  {
    hide Gaps, UsableAnswers, Uncapped, Decide, WithMechanical, OnRecord, Owes, NextStep, GoodState,
      IsUnnumberedBlocker, IsMechanicalShape, BlocksUnder, IsUnruledGap;
    var base, earlier := ListParts(q, s, open);
    RecordedIsCapped(q, s, open);
    CapKeepsBlocks(Uncapped(q, s, open), t);
    OnRecordIsShaped(s, q.pr);
    GapsAreBlockers(q, s, UsableAnswers(q, s), open);
    BlocksInList(base, earlier, Gaps(q, s, UsableAnswers(q, s), open), q.pr, Code, s.highest, t);
    OwesMeans(q, s, open, t);
    OnRecordMeans(s, t);
    assert t in Titles(earlier) <==> t in Titles(OnRecord(s));
  }

  /** In every run. */
  lemma EveryDescriptionBlocksWhen(run: seq<Moment>, k: nat, v: Verdict, t: Title)
    requires IsRun(run) && k < |run| && Appends(run[k], v) && v.artifact == Code
    ensures var q, s := run[k].event.q, run[k].state;
      BlocksUnder(v.findings, t) <==>
        && Owes(q, s, run[k].open, t)
        && ((forall f :: f in s.findings && f.file == Description ==> f.title != t)
            || exists f :: f in s.findings && IsUnruledGap(f, t) && !DeferredByRuling(s, f))
  {
    hide Decide, GoodState, Owes, BlocksUnder, IsUnruledGap;
    RecordedIsDecided(run, k, v);
    Promises.DecidedFor(run[k].event.q, run[k].state, run[k].open);
    DescriptionBlocksWhen(run[k].event.q, run[k].state, run[k].open, t);
  }
}
