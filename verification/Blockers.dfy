/** What a pass decides: the fate of open blockers, and the accounting of carry-forwards. */
module Blockers {
  import opened Wrappers
  import opened Sequences
  import opened Findings
  import opened Carry
  import opened Rounds
  import opened Admission
  import opened Service
  import opened PassShape

  // ---------------------------------------------------------------- who answered what

  ghost function Known(s: LoopState): Locations {
    LocationsOf(Earlier(s))
  }

  /** The `k`-th reply kept, as far as it may speak. */
  ghost function HeardFrom(q: Request, s: LoopState, k: nat): Option<JudgeVerdict>
    requires k < |q.judgement.replies|
  {
    HeardAt(q.judgement, Known(s), k)
  }

  ghost predicate Answers(q: Request, s: LoopState, k: nat, i: Id, status: AnswerStatus) {
    k < |q.judgement.replies| && HeardFrom(q, s, k).Some? && Answer(F(i), status) in HeardFrom(q, s, k).value.previous
  }

  ghost predicate SomeAnswers(q: Request, s: LoopState, i: Id, status: AnswerStatus) {
    exists k: nat :: Answers(q, s, k, i, status)
  }

  ghost predicate Reports(q: Request, s: LoopState, k: nat, f: Finding) {
    k < |q.judgement.replies| && HeardFrom(q, s, k).Some? && f in HeardFrom(q, s, k).value.findings
  }

  /** Some admissible reply reports the finding again, as an open one. */
  ghost predicate ReportsAgain(q: Request, s: LoopState, i: Id) {
    exists k: nat, f :: Reports(q, s, k, f) && f.id == Some(i) && IsOpen(f.status)
  }

  /** The merged list of the pass repeats the id. */
  ghost predicate MergedRepeats(q: Request, s: LoopState, i: Id) {
    var m := Merge(q.judgement, Known(s));
    m.Some? && i in Ids(m.value.findings)
  }

  /** Judges settle a finding: one said "fixed", none "still open", and the list repeats it not. */
  ghost predicate SettledByJudges(q: Request, s: LoopState, i: Id) {
    && WakesJudge(q, s)
    && SomeAnswers(q, s, i, AnsweredFixed)
    && !SomeAnswers(q, s, i, AnsweredOpen)
    && !MergedRepeats(q, s, i)
  }

  /** This closure applies the operator's carry_forward ruling to the finding. */
  ghost predicate DeferredByRuling(s: LoopState, f: Finding) {
    && NextStep(s) == Closing
    && match f.id
       case Some(i) => i in s.rulings && s.rulings[i].kind == RuledCarryForward
       case None => false
  }

  ghost function HeardAll(q: Request, s: LoopState): seq<JudgeVerdict> {
    HeardVerdicts(q.judgement, Known(s), |q.judgement.replies|)
  }

  lemma HeardIsReply(q: Request, s: LoopState, v: JudgeVerdict) returns (k: nat)
    requires v in HeardAll(q, s)
    ensures k < |q.judgement.replies| && HeardFrom(q, s, k) == Some(v)
  {
    k :| 0 <= k < |q.judgement.replies| && HeardAt(q.judgement, Known(s), k) == Some(v);
  }

  lemma ReplyIsHeard(q: Request, s: LoopState, k: nat)
    requires k < |q.judgement.replies| && HeardFrom(q, s, k).Some?
    ensures HeardFrom(q, s, k).value in HeardAll(q, s)
  {
  }

  lemma SomeAnswersMeans(q: Request, s: LoopState, i: Id, status: AnswerStatus)
    ensures SomeAnswers(q, s, i, status) <==>
      exists v :: v in HeardAll(q, s) && Answer(F(i), status) in v.previous
  {
    if SomeAnswers(q, s, i, status) {
      var k: nat :| Answers(q, s, k, i, status);
      ReplyIsHeard(q, s, k);
    }
    if v :| v in HeardAll(q, s) && Answer(F(i), status) in v.previous {
      var k := HeardIsReply(q, s, v);
      assert Answers(q, s, k, i, status);
    }
  }

  lemma FoldedAnswerMeans(vs: seq<JudgeVerdict>, x: Ref)
    ensures var m := MergedAnswers(vs);
      (x in m && m[x] == AnsweredFixed) <==>
        && (exists v :: v in vs && Answer(x, AnsweredFixed) in v.previous)
        && !(exists v :: v in vs && Answer(x, AnsweredOpen) in v.previous)
  {
    var m := MergedAnswers(vs);
    if x in m {
      var v, a :| v in vs && a in v.previous && a.ref == x;
      assert a == Answer(x, AnsweredFixed) || a == Answer(x, AnsweredOpen);
    }
    forall v | v in vs && Answer(x, AnsweredFixed) in v.previous ensures x in m {
      assert Answer(x, AnsweredFixed).ref == x;
    }
  }

  /** "Still open" wins: the merged answer is "fixed" when every judge that answered said so. */
  lemma MergedAnswerMeans(q: Request, s: LoopState, i: Id)
    requires Merge(q.judgement, Known(s)).Some?
    ensures var m := Merge(q.judgement, Known(s)).value;
      (F(i) in m.answers && m.answers[F(i)] == AnsweredFixed) <==>
        (SomeAnswers(q, s, i, AnsweredFixed) && !SomeAnswers(q, s, i, AnsweredOpen))
  {
    SomeAnswersMeans(q, s, i, AnsweredFixed);
    SomeAnswersMeans(q, s, i, AnsweredOpen);
    FoldedAnswerMeans(HeardAll(q, s), F(i));
  }

  // ---------------------------------------------------------------- the fate of an open blocker

  lemma FateOpen(f: Finding, s: LoopState, step: Step, answers: map<Ref, AnswerStatus>, repeated: set<Id>)
    requires f.id.Some? && OpenBlocker(f)
    ensures var g := JudgedFate(f, s, step, answers, repeated);
      && g.id == f.id
      && (OpenBlocker(g) <==>
          && !(step == Closing && IsDeferredBy(f, s.rulings))
          && !(F(f.id.value) in answers && answers[F(f.id.value)] == AnsweredFixed && f.id.value !in repeated))
  {
  }

  /** The finding that carries `f`'s id in a list decides whether the id is open there. */
  ghost predicate OpenIn(fs: seq<Finding>, i: Id) {
    exists g :: g in fs && g.id == Some(i) && OpenBlocker(g)
  }

  lemma OnlyHolderDecides(fs: seq<Finding>, g: Finding)
    requires DistinctIds(fs) && g in fs && g.id.Some?
    ensures OpenIn(fs, g.id.value) <==> OpenBlocker(g)
    ensures OpenIn(Capped(fs), g.id.value) <==> OpenBlocker(g)
  {
  }

  lemma RepeatedMeans(q: Request, s: LoopState, m: Merged, i: Id)
    requires i in Ids(Earlier(s))
    ensures i in Repeated(q, s, m) <==> i in Ids(m.findings)
  {
    ClassifiedKeepsIds(m.findings, q.artifact);
  }

  /** Where an earlier judged finding stands in the whole list of a judged pass. */
  lemma FateIsInFinished(q: Request, s: LoopState, step: Step, sameHead: bool, m: Merged,
                         open: seq<Id>, f: Finding)
    requires GoodState(s, q.pr) && f in s.findings && IsJudged(f)
    ensures JudgedFate(f, s, step, m.answers, Repeated(q, s, m)) in FinishedFindings(q, s, step, sameHead, m, open)
  {
    hide JudgedFindings, JudgedFate, Repeated, Gaps, Kept, Unseen, GoodState;
    JudgedShape(q, s, step, sameHead, m);
    var e := Earlier(s);
    var r := JudgedFindings(q, s, step, sameHead, m);
    assert f in e;
    var k :| 0 <= k < |e| && e[k] == f;
    assert r[k] in r;
    if q.artifact == Code {
      assert r[k] in FinishedFindings(q, s, step, sameHead, m, open);
    }
  }

  lemma JudgedIsInRecomputed(fs: seq<Finding>, q: Request, s: LoopState, open: seq<Id>, f: Finding)
    requires f in fs && IsJudged(f)
    ensures f in MechanicalRecomputed(fs, q, s, open)
  {
  }

  /**
   * Exactly when an open judged blocker stops being open: a closure applies a carry_forward
   * ruling to it, or the judges settle it. No other input of a pass, and no cap, closes it.
   */
  lemma BlockerFate(q: Request, s: LoopState, open: seq<Id>, f: Finding)
    requires GoodState(s, q.pr) && Decide(q, s, open).Some?
    requires f in s.findings && IsJudged(f) && OpenBlocker(f)
    ensures OpenIn(Decide(q, s, open).value.findings, f.id.value) <==>
      !DeferredByRuling(s, f) && !SettledByJudges(q, s, f.id.value)
  {
    var fs := Uncapped(q, s, open);
    RecordedIsCapped(q, s, open);
    UncappedIsLawful(q, s, open);
    if NextStep(s) == Waiting {
      JudgedIsInRecomputed(s.findings, q, s, open, f);
      OnlyHolderDecides(fs, f);
    } else if ClosesWithoutJudge(q, s) {
      var g := AfterRulings(f, s.rulings);
      var k :| 0 <= k < |s.findings| && s.findings[k] == f;
      assert ApplyRulings(s.findings, s.rulings)[k] == g;
      JudgedIsInRecomputed(ApplyRulings(s.findings, s.rulings), q, s, open, g);
      OnlyHolderDecides(fs, g);
    } else {
      JudgedBlockerFate(q, s, open, f);
    }
  }

  lemma JudgedBlockerFate(q: Request, s: LoopState, open: seq<Id>, f: Finding)
    requires GoodState(s, q.pr) && Decide(q, s, open).Some? && WakesJudge(q, s)
    requires f in s.findings && IsJudged(f) && OpenBlocker(f)
    ensures OpenIn(Decide(q, s, open).value.findings, f.id.value) <==>
      !DeferredByRuling(s, f) && !SettledByJudges(q, s, f.id.value)
  {
    hide JudgedFate, Repeated, Merge, Capped, DistinctIds, FinishedFindings, MechanicalRecomputed, AccountingOf;
    var step := NextStep(s);
    var m := Merge(q.judgement, Known(s)).value;
    RecordedIsCapped(q, s, open);
    UncappedIsLawful(q, s, open);
    assert f in Earlier(s);
    var g := JudgedFate(f, s, step, m.answers, Repeated(q, s, m));
    FateIsInFinished(q, s, step, SameHead(q, s), m, open, f);
    OnlyHolderDecides(Uncapped(q, s, open), g);
    FateOpen(f, s, step, m.answers, Repeated(q, s, m));
    RepeatedMeans(q, s, m, f.id.value);
    MergedAnswerMeans(q, s, f.id.value);
  }

  // ---------------------------------------------------------------- the fate of a closed blocker

  /** A judge reports the finding again, in a pass that listens. */
  ghost predicate ReopenedByJudges(q: Request, s: LoopState, f: Finding) {
    f.status == Fixed && WakesJudge(q, s) && f.id.Some? && MergedRepeats(q, s, f.id.value)
  }

  lemma FateClosed(f: Finding, s: LoopState, step: Step, answers: map<Ref, AnswerStatus>, repeated: set<Id>)
    requires f.id.Some? && !IsOpen(f.status) && f.klass == Some(Blocker)
    ensures var g := JudgedFate(f, s, step, answers, repeated);
      && g.id == f.id
      && (OpenBlocker(g) <==> f.status == Fixed && f.id.value in repeated
                              && !(step == Closing && IsDeferredBy(f, s.rulings)))
  {
  }

  /** A closed blocker opens again exactly when judges report a fixed one, unless the closure
      defers it; a ruled one never does. */
  lemma ClosedFate(q: Request, s: LoopState, open: seq<Id>, f: Finding)
    requires GoodState(s, q.pr) && Decide(q, s, open).Some?
    requires f in s.findings && IsJudged(f) && !IsOpen(f.status) && f.klass == Some(Blocker)
    ensures OpenIn(Decide(q, s, open).value.findings, f.id.value) <==>
      ReopenedByJudges(q, s, f) && !DeferredByRuling(s, f)
  {
    var fs := Uncapped(q, s, open);
    RecordedIsCapped(q, s, open);
    UncappedIsLawful(q, s, open);
    if NextStep(s) == Waiting {
      JudgedIsInRecomputed(s.findings, q, s, open, f);
      OnlyHolderDecides(fs, f);
    } else if ClosesWithoutJudge(q, s) {
      var g := AfterRulings(f, s.rulings);
      AppliedHolds(s.findings, s.rulings, f);
      JudgedIsInRecomputed(ApplyRulings(s.findings, s.rulings), q, s, open, g);
      OnlyHolderDecides(fs, g);
    } else {
      JudgedClosedFate(q, s, open, f);
    }
  }

  lemma JudgedClosedFate(q: Request, s: LoopState, open: seq<Id>, f: Finding)
    requires GoodState(s, q.pr) && Decide(q, s, open).Some? && WakesJudge(q, s)
    requires f in s.findings && IsJudged(f) && !IsOpen(f.status) && f.klass == Some(Blocker)
    ensures OpenIn(Decide(q, s, open).value.findings, f.id.value) <==>
      ReopenedByJudges(q, s, f) && !DeferredByRuling(s, f)
  {
    hide JudgedFate, Repeated, Merge, Capped, DistinctIds, FinishedFindings, MechanicalRecomputed, AccountingOf;
    var step := NextStep(s);
    var m := Merge(q.judgement, Known(s)).value;
    RecordedIsCapped(q, s, open);
    UncappedIsLawful(q, s, open);
    assert f in Earlier(s);
    var g := JudgedFate(f, s, step, m.answers, Repeated(q, s, m));
    FateIsInFinished(q, s, step, SameHead(q, s), m, open, f);
    OnlyHolderDecides(Uncapped(q, s, open), g);
    FateClosed(f, s, step, m.answers, Repeated(q, s, m));
    RepeatedMeans(q, s, m, f.id.value);
  }

  // ---------------------------------------------------------------- the fate of a description's gap

  /** The answers a pass may use to confirm a claim: none when no judge runs. */
  ghost function UsableAnswers(q: Request, s: LoopState): map<Ref, AnswerStatus> {
    var m := Merge(q.judgement, Known(s));
    if WakesJudge(q, s) && m.Some? then m.value.answers else map[]
  }

  /** Is the gap still one the description earns, read as of this pass? */
  ghost predicate StillEarned(q: Request, s: LoopState, open: seq<Id>, f: Finding) {
    f.title in Titles(Gaps(q, s, UsableAnswers(q, s), open))
  }

  lemma KeptDecides(base: seq<Finding>, earlier: seq<Finding>, current: seq<Finding>, pr: nat,
                    artifact: Artifact, floor: nat, g: Finding)
    requires g in earlier
    ensures Reconciled(g, Titles(current)) in WithMechanical(base, earlier, current, pr, artifact, floor)
  {
  }

  lemma AppliedHolds(fs: seq<Finding>, rulings: map<Id, Ruling>, f: Finding)
    requires f in fs
    ensures AfterRulings(f, rulings) in ApplyRulings(fs, rulings)
  {
  }

  lemma GapInList(q: Request, s: LoopState, open: seq<Id>, f: Finding)
    requires GoodState(s, q.pr) && Decide(q, s, open).Some? && q.artifact == Code
    requires f in s.findings && IsMechanical(f) && f.status != Ruled
    ensures var g := if NextStep(s) == Closing then AfterRulings(f, s.rulings) else f;
      Reconciled(g, Titles(Gaps(q, s, UsableAnswers(q, s), open))) in Uncapped(q, s, open)
  {
    hide Reconciled, Merge, WithMechanical, Finish, Claimed, CurrentBlockers;
    var current := Gaps(q, s, UsableAnswers(q, s), open);
    if NextStep(s) == Waiting {
      assert f in Filter(IsMechanical, s.findings);
      KeptDecides(Filter(IsJudged, s.findings), Filter(IsMechanical, s.findings), current,
                  q.pr, q.artifact, s.highest, f);
    } else if ClosesWithoutJudge(q, s) {
      var ruled := ApplyRulings(s.findings, s.rulings);
      AppliedHolds(s.findings, s.rulings, f);
      KeptDecides(Filter(IsJudged, ruled), Filter(IsMechanical, ruled), current, q.pr, q.artifact, s.highest,
                  AfterRulings(f, s.rulings));
    } else {
      GapInFinished(q, s, open, f);
    }
  }

  lemma GapInFinished(q: Request, s: LoopState, open: seq<Id>, f: Finding)
    requires Decide(q, s, open).Some? && q.artifact == Code && WakesJudge(q, s)
    requires f in s.findings && IsMechanical(f)
    ensures var g := if NextStep(s) == Closing then AfterRulings(f, s.rulings) else f;
      Reconciled(g, Titles(Gaps(q, s, UsableAnswers(q, s), open))) in Uncapped(q, s, open)
  {
    hide Merge, JudgedFindings, Reconciled, WithMechanical, Gaps, Capped, AccountingOf;
    var onRecord := Filter(IsMechanical, s.findings);
    assert f in onRecord;
    AppliedHolds(onRecord, s.rulings, f);
    var g := if NextStep(s) == Closing then AfterRulings(f, s.rulings) else f;
    assert g in MechanicalOnRecord(s, NextStep(s));
    var m := Merge(q.judgement, Known(s)).value;
    KeptDecides(JudgedFindings(q, s, NextStep(s), SameHead(q, s), m), MechanicalOnRecord(s, NextStep(s)),
                Gaps(q, s, m.answers, open), q.pr, q.artifact, s.highest, g);
  }

  lemma ReconciledOpen(f: Finding, rulings: map<Id, Ruling>, closing: bool, titles: set<Title>)
    requires IsMechanical(f) && IsMechanicalShape(f) && f.status != Ruled
    ensures var g := Reconciled(if closing then AfterRulings(f, rulings) else f, titles);
      && g.id == f.id
      && (OpenBlocker(g) <==> !(closing && IsDeferredBy(f, rulings)) && f.title in titles)
  {
  }

  lemma ListDecides(fs: seq<Finding>, recorded: seq<Finding>, g: Finding, i: Id)
    requires DistinctIds(fs) && recorded == Capped(fs) && g in fs && g.id == Some(i)
    ensures OpenIn(recorded, i) <==> OpenBlocker(g)
  {
  }

  lemma RecordedFrom(q: Request, s: LoopState, open: seq<Id>)
    requires GoodState(s, q.pr) && Decide(q, s, open).Some?
    ensures DistinctIds(Uncapped(q, s, open))
    ensures Decide(q, s, open).value.findings == Capped(Uncapped(q, s, open))
  {
    RecordedIsCapped(q, s, open);
    UncappedIsLawful(q, s, open);
  }

  /**
   * A gap of the description's accounting is re-derived by every pass on code: it is open
   * exactly when the description still earns it and no closure defers it.
   */
  lemma GapFate(q: Request, s: LoopState, open: seq<Id>, f: Finding)
    requires GoodState(s, q.pr) && Decide(q, s, open).Some? && q.artifact == Code
    requires f in s.findings && IsMechanical(f) && f.status != Ruled
    ensures OpenIn(Decide(q, s, open).value.findings, f.id.value) <==>
      !DeferredByRuling(s, f) && StillEarned(q, s, open, f)
  {
    var titles := Titles(Gaps(q, s, UsableAnswers(q, s), open));
    var closing := NextStep(s) == Closing;
    var g := Reconciled(if closing then AfterRulings(f, s.rulings) else f, titles);
    ReconciledOpen(f, s.rulings, closing, titles);
    RecordedFrom(q, s, open);
    GapInList(q, s, open, f);
    ListDecides(Uncapped(q, s, open), Decide(q, s, open).value.findings, g, f.id.value);
  }

  // ---------------------------------------------------------------- only a judge that saw it

  /** The sight the `k`-th reply is held to: its own, or that of the whole piece it judged. */
  function SightOf(q: Request, k: nat): Sight
    requires k < |q.judgement.replies|
  {
    match q.judgement.replies[k].reply.sight
    case Some(own) => own
    case None => q.judgement.replies[k].wholeSight
  }

  /** The file was shown whole, or the line was within a range that was. */
  predicate WasShown(sight: Sight, path: string, line: Option<nat>) {
    || path in sight.complete
    || (line.Some? && path in sight.cut
        && exists lines :: lines in sight.cut[path] && lines.0 <= line.value <= lines.1)
  }

  /** The judge saw the recorded location, or the finding's own window was quoted to it. */
  ghost predicate SawOrWasQuoted(q: Request, s: LoopState, k: nat, i: Id)
    requires k < |q.judgement.replies| && i in Known(s)
  {
    && q.judgement.readable
    && match Resolve(Known(s)[i].0, q.judgement.judgedFiles)
       case Missing => i in q.judgement.excerpted
       case Ambiguous => false
       case At(path) => WasShown(SightOf(q, k), path, Known(s)[i].1)
  }

  lemma AnswersSaw(q: Request, s: LoopState, k: nat, i: Id, status: AnswerStatus)
    requires Answers(q, s, k, i, status) && i in Known(s)
    ensures SawOrWasQuoted(q, s, k, i)
  {
    hide Resolve, Known, SeenOrDemoted;
    assert Answer(F(i), status) in HeardFrom(q, s, k).value.previous;
  }

  lemma ReportsSaw(q: Request, s: LoopState, k: nat, f: Finding)
    requires Reports(q, s, k, f) && f.id.Some? && f.id.value in Known(s)
    ensures SawOrWasQuoted(q, s, k, f.id.value)
  {
    hide Resolve, Known, SeenOrDemoted;
  }

  lemma ReportSurvivesMerge(q: Request, s: LoopState, i: Id)
    requires Merge(q.judgement, Known(s)).Some? && ReportsAgain(q, s, i)
    ensures MergedRepeats(q, s, i)
  {
    var k: nat, f :| Reports(q, s, k, f) && f.id == Some(i) && IsOpen(f.status);
    ReplyIsHeard(q, s, k);
    assert f in MergedFindings(HeardAll(q, s));
  }

  lemma MergedComesFromSome(vs: seq<JudgeVerdict>, i: Id) returns (v: JudgeVerdict, f: Finding)
    requires i in Ids(Capped(MergedFindings(vs)))
    ensures v in vs && f in v.findings && f.id == Some(i)
  {
    f :| f in Capped(MergedFindings(vs)) && f.id == Some(i);
    v :| v in vs && f in v.findings;
  }

  lemma MergedRepeatIsReported(q: Request, s: LoopState, i: Id)
    requires MergedRepeats(q, s, i)
    ensures exists k: nat, f :: Reports(q, s, k, f) && f.id == Some(i)
  {
    var v, f := MergedComesFromSome(HeardAll(q, s), i);
    var k := HeardIsReply(q, s, v);
    assert Reports(q, s, k, f);
  }

  /**
   * A judged blocker that closes without a ruling was answered "fixed" by a judge that saw its
   * location or was quoted its window, and no such judge kept it open or reported it again.
   */
  lemma ClosedBlockerWasSeenFixed(q: Request, s: LoopState, open: seq<Id>, f: Finding)
    requires GoodState(s, q.pr) && Decide(q, s, open).Some?
    requires f in s.findings && IsJudged(f) && OpenBlocker(f)
    requires !OpenIn(Decide(q, s, open).value.findings, f.id.value) && !DeferredByRuling(s, f)
    ensures f.id.value in Known(s)
    ensures exists k: nat :: Answers(q, s, k, f.id.value, AnsweredFixed) && SawOrWasQuoted(q, s, k, f.id.value)
    ensures !SomeAnswers(q, s, f.id.value, AnsweredOpen)
    ensures !ReportsAgain(q, s, f.id.value)
  {
    var i := f.id.value;
    BlockerFate(q, s, open, f);
    assert f in Earlier(s);
    var k: nat :| Answers(q, s, k, i, AnsweredFixed);
    AnswersSaw(q, s, k, i, AnsweredFixed);
    if ReportsAgain(q, s, i) {
      ReportSurvivesMerge(q, s, i);
    }
  }

  // ---------------------------------------------------------------- the decision

  /** A verdict approves exactly when no blocker is open, unless it awaits a ruling. */
  lemma ApproveMeansNoOpenBlocker(q: Request, s: LoopState, open: seq<Id>)
    requires Decide(q, s, open).Some?
    ensures var v := Decide(q, s, open).value;
      v.approve <==> v.round != AwaitingRuling && forall f :: f in v.findings ==> !OpenBlocker(f)
  {
    hide Merge, Await, Close, Finish, NextStep;
  }

  lemma RecomputedIgnoresJudges(fs: seq<Finding>, q: Request, other: Judgement, s: LoopState, open: seq<Id>)
    ensures MechanicalRecomputed(fs, q.(judgement := other), s, open) == MechanicalRecomputed(fs, q, s, open)
  {
  }

  /** While a ruling is awaited, and in a closure with nothing to read, judges have no say. */
  lemma NoJudgeNoSay(q: Request, other: Judgement, s: LoopState, open: seq<Id>)
    requires !WakesJudge(q, s)
    ensures Decide(q, s, open) == Decide(q.(judgement := other), s, open)
  {
    if NextStep(s) == Waiting {
      RecomputedIgnoresJudges(s.findings, q, other, s, open);
    } else {
      RecomputedIgnoresJudges(ApplyRulings(s.findings, s.rulings), q, other, s, open);
    }
  }

  // ---------------------------------------------------------------- new blockers

  /** A blocker the judges raise in this pass, not one on record. */
  predicate IsRaised(s: LoopState, g: Finding) {
    IsJudged(g) && OpenBlocker(g) && g.id.Some? && g.id.value.n > s.highest
  }

  /** The head the last judging verdict was about. */
  predicate IsOnJudgedHead(q: Request, s: LoopState) {
    s.lastJudged.Some? && s.lastJudged.value.sha == q.sha
  }

  /** The place lies on what changed since the last judged head, or on the whole pull request when
      that is not known. */
  predicate IsOnAChange(q: Request, f: Finding) {
    var changed := match q.delta case Some(lines) => lines case None => q.whole;
    match f.file
    case Path(path) => path in changed && (f.line == None || f.line.value in changed[path])
    case _ => false
  }

  lemma InsideIsOnAChange(q: Request, g: Finding)
    ensures InsideDelta(g, DeltaLines(q)) <==> IsOnAChange(q, g)
  {
  }

  /** Round 3 and the closure come after some verdict, so there is a list to compare with. */
  lemma LateStepHasList(s: LoopState, pr: nat)
    requires GoodState(s, pr) && (NextStep(s) == JudgedRound(3) || NextStep(s) == Closing)
    ensures s.hasFindingsList
  {
  }

  lemma FreshTailIsLimited(q: Request, s: LoopState, step: Step, sameHead: bool, e: seq<Finding>, a: seq<Finding>)
    requires IsFreshFrom(a, |e|, q.pr, s.highest) && s.hasFindingsList
    requires forall i :: i in s.rulings ==> i.n <= s.highest
    requires forall f :: f in e ==> f.id.Some? && f.id.value.n <= s.highest
    requires step == JudgedRound(3) || step == Closing
    ensures var r := Limited(q, s, step, sameHead, Ids(e), a);
      forall k :: |e| <= k < |a| && OpenBlocker(r[k]) ==>
        InsideDelta(r[k], DeltaLines(q)) && !(step == Closing && sameHead)
  {
  }

  /** An earlier finding keeps its number, so it is never one the pass raises. */
  lemma EarlierIsNotRaised(q: Request, s: LoopState, step: Step, sameHead: bool, m: Merged, k: nat)
    requires GoodState(s, q.pr) && k < |Earlier(s)|
    requires k < |JudgedFindings(q, s, step, sameHead, m)|
    ensures !IsRaised(s, JudgedFindings(q, s, step, sameHead, m)[k])
  {
    JudgedShape(q, s, step, sameHead, m);
    FatesAreLawful(s, q.pr, step, m.answers, Repeated(q, s, m));
    assert Earlier(s)[k] in Earlier(s);
  }

  lemma RaisedIsLimited(q: Request, s: LoopState, step: Step, sameHead: bool, m: Merged, g: Finding)
    requires GoodState(s, q.pr) && s.hasFindingsList
    requires step == JudgedRound(3) || step == Closing
    requires g in JudgedFindings(q, s, step, sameHead, m) && IsRaised(s, g)
    ensures InsideDelta(g, DeltaLines(q)) && !(step == Closing && sameHead)
  {
    var r := JudgedFindings(q, s, step, sameHead, m);
    var k: nat :| k < |r| && r[k] == g;
    if k < |Earlier(s)| {
      EarlierIsNotRaised(q, s, step, sameHead, m, k);
    } else {
      EarlierAreNumbered(s, q.pr);
      RaisedIsLimitedAt(q, s, Earlier(s), step, sameHead, m, k);
    }
  }

  lemma RaisedIsLimitedAt(q: Request, s: LoopState, e: seq<Finding>, step: Step, sameHead: bool,
                          m: Merged, k: nat)
    requires e == Earlier(s) && s.hasFindingsList && GoodState(s, q.pr)
    requires forall f :: f in e ==> f.id.Some? && f.id.value.n <= s.highest
    requires step == JudgedRound(3) || step == Closing
    requires |e| <= k < |JudgedFindings(q, s, step, sameHead, m)|
    requires OpenBlocker(JudgedFindings(q, s, step, sameHead, m)[k])
    ensures InsideDelta(JudgedFindings(q, s, step, sameHead, m)[k], DeltaLines(q))
    ensures !(step == Closing && sameHead)
  {
    hide InsideDelta, Assign, ApplyRulings;
    AssignedShape(q, s, m);
    FreshTailIsLimited(q, s, step, sameHead, e, Assigned(q, s, m));
  }

  lemma FinishedJudgedPart(q: Request, s: LoopState, step: Step, sameHead: bool, m: Merged,
                           open: seq<Id>, g: Finding)
    requires GoodState(s, q.pr) && IsJudged(g)
    requires g in FinishedFindings(q, s, step, sameHead, m, open)
    ensures g in JudgedFindings(q, s, step, sameHead, m)
  {
    if q.artifact == Code {
      JudgedIsLawful(q, s, step, sameHead, m);
      GapsAreBlockers(q, s, m.answers, open);
      MechanicalPartIsLawful(q, s, step, JudgedFindings(q, s, step, sameHead, m), Gaps(q, s, m.answers, open));
    }
  }

  lemma RecomputedRaisesNothing(fs: seq<Finding>, q: Request, s: LoopState, open: seq<Id>, g: Finding)
    requires GoodState(s, q.pr) && LawfulList(s, q.pr, fs)
    requires forall f :: f in fs ==> ContinuesSome(s, f)
    requires g in MechanicalRecomputed(fs, q, s, open)
    ensures !IsRaised(s, g)
  {
    RecomputedIsLawful(fs, q, s, open);
    if IsJudged(g) {
      assert g in fs;
    }
  }

  lemma JudgedPassIsLimited(q: Request, s: LoopState, open: seq<Id>, g: Finding)
    requires GoodState(s, q.pr) && Decide(q, s, open).Some? && WakesJudge(q, s)
    requires NextStep(s) == JudgedRound(3) || NextStep(s) == Closing
    requires g in Uncapped(q, s, open) && IsRaised(s, g)
    ensures InsideDelta(g, DeltaLines(q)) && !(NextStep(s) == Closing && SameHead(q, s))
  {
    LateStepHasList(s, q.pr);
    var m := Merge(q.judgement, Known(s)).value;
    FinishedJudgedPart(q, s, NextStep(s), SameHead(q, s), m, open, g);
    RaisedIsLimited(q, s, NextStep(s), SameHead(q, s), m, g);
  }

  lemma UnjudgedPassRaisesNothing(q: Request, s: LoopState, open: seq<Id>, g: Finding)
    requires GoodState(s, q.pr) && !WakesJudge(q, s)
    requires g in Uncapped(q, s, open)
    ensures !IsRaised(s, g)
  {
    if NextStep(s) == Waiting {
      OnRecordIsLawful(s, q.pr, s.findings);
      RecomputedRaisesNothing(s.findings, q, s, open, g);
    } else {
      RuledIsLawful(s, q.pr, s.findings);
      RecomputedRaisesNothing(ApplyRulings(s.findings, s.rulings), q, s, open, g);
    }
  }

  /** Round 3, a closure, or a pass that wakes no judge. */
  predicate IsLate(q: Request, s: LoopState) {
    NextStep(s) == JudgedRound(3) || NextStep(s) == Closing || !WakesJudge(q, s)
  }

  lemma LateListIsLimited(q: Request, s: LoopState, open: seq<Id>, g: Finding)
    requires GoodState(s, q.pr) && Decide(q, s, open).Some? && IsLate(q, s)
    requires g in Uncapped(q, s, open) && IsRaised(s, g)
    ensures InsideDelta(g, DeltaLines(q))
    ensures WakesJudge(q, s) && !(NextStep(s) == Closing && SameHead(q, s))
  {
    if WakesJudge(q, s) {
      JudgedPassIsLimited(q, s, open, g);
    } else {
      UnjudgedPassRaisesNothing(q, s, open, g);
    }
  }

  /**
   * No late surprise: from round 3 on, a blocker the judges raise lies on a line the change
   * since the last judged head touched, and a closure on the judged head raises none.
   */
  lemma LateBlockersAreInsideTheDelta(q: Request, s: LoopState, open: seq<Id>, g: Finding)
    requires GoodState(s, q.pr) && Decide(q, s, open).Some? && IsLate(q, s)
    requires g in Decide(q, s, open).value.findings && IsRaised(s, g)
    ensures IsOnAChange(q, g)
    ensures WakesJudge(q, s) && !(NextStep(s) == Closing && IsOnJudgedHead(q, s))
  {
    RecordedIsCapped(q, s, open);
    LateListIsLimited(q, s, open, g);
    InsideIsOnAChange(q, g);
  }
}
