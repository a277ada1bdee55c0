/** What becomes of every finding on record, and which words of a judge count
    (src/rail/reviewer/rounds.py, service.py). */
module Fates {
  import opened Wrappers
  import opened Findings
  import opened Carry
  import opened Rounds
  import opened Admission
  import opened Service
  import opened PassShape
  import opened Blockers
  import opened Runs
  import opened PassRules

  // ---------------------------------------------------------------- the judges' findings

  /** The pass hears its judges. */
  predicate Listens(q: Request, s: LoopState) {
    NextStep(s).JudgedRound? || (NextStep(s) == Closing && HasNewToRead(q, s))
  }

  /** The status a pass leaves a judged finding with. */
  ghost function StatusAfter(q: Request, s: LoopState, f: Finding): Status
    requires f.id.Some?
  {
    if DeferredByRuling(s, f) then Ruled
    else if f.status == Ruled || !Listens(q, s) then f.status
    else if MergedRepeats(q, s, f.id.value) then StillOpen
    else if f.status == Fixed then Fixed
    else if SomeAnswers(q, s, f.id.value, AnsweredFixed) && !SomeAnswers(q, s, f.id.value, AnsweredOpen) then Fixed
    else StillOpen
  }

  /** The finding a pass makes of `f`: its status moves, and its class only when it is handed on. */
  ghost function FateOf(q: Request, s: LoopState, f: Finding): Finding
    requires f.id.Some?
  {
    f.(status := StatusAfter(q, s, f), klass := if DeferredByRuling(s, f) then Some(CarryForward) else f.klass)
  }

  lemma JudgedFateIs(q: Request, s: LoopState, f: Finding)
    requires GoodState(s, q.pr) && WakesJudge(q, s) && Merge(q.judgement, Known(s)).Some? && f in Earlier(s)
    ensures var m := Merge(q.judgement, Known(s)).value;
      f.id.Some? && JudgedFate(f, s, NextStep(s), m.answers, Repeated(q, s, m)) == FateOf(q, s, f)
  {
    hide Merge, NextStep, Repeated, GoodState, SomeAnswers, WakesJudge, Known, HasNewToRead;
    var m := Merge(q.judgement, Known(s)).value;
    EarlierAreNumbered(s, q.pr);
    ListensWhen(q, s);
    MergedAnswerMeans(q, s, f.id.value);
    RepeatedMeans(q, s, m, f.id.value);
  }

  lemma UnheardFateIs(q: Request, s: LoopState, f: Finding)
    requires !WakesJudge(q, s) && f.id.Some?
    ensures FateOf(q, s, f) == if NextStep(s) == Closing then AfterRulings(f, s.rulings) else f
  {
    hide NextStep, HasNewToRead, MergedRepeats, SomeAnswers;
    ListensWhen(q, s);
  }

  lemma FateIsBuilt(q: Request, s: LoopState, open: seq<Id>, f: Finding)
    requires GoodState(s, q.pr) && Decide(q, s, open).Some? && f in s.findings && IsJudged(f)
    ensures f.id.Some? && FateOf(q, s, f) in Uncapped(q, s, open)
  {
    hide FateOf, NextStep, JudgedFate, Repeated, Merge, FinishedFindings, MechanicalRecomputed, AccountingOf,
      Finish, Capped, LocationsOf;
    assert f in Earlier(s);
    EarlierAreNumbered(s, q.pr);
    if WakesJudge(q, s) {
      JudgedNeedsMerge(q, s, open);
      JudgedFateIs(q, s, f);
      FateIsInFinished(q, s, NextStep(s), SameHead(q, s), Merge(q.judgement, Known(s)).value, open, f);
    } else {
      UnheardFateIs(q, s, f);
      UnheardIsBuilt(q, s, open, f);
    }
  }

  lemma UnheardIsBuilt(q: Request, s: LoopState, open: seq<Id>, f: Finding)
    requires !WakesJudge(q, s) && f in s.findings && IsJudged(f)
    ensures (if NextStep(s) == Closing then AfterRulings(f, s.rulings) else f) in Uncapped(q, s, open)
  {
    hide NextStep, MechanicalRecomputed;
    if NextStep(s) == Waiting {
      JudgedIsInRecomputed(s.findings, q, s, open, f);
    } else {
      AppliedHolds(s.findings, s.rulings, f);
      JudgedIsInRecomputed(ApplyRulings(s.findings, s.rulings), q, s, open, AfterRulings(f, s.rulings));
    }
  }

  /**
   * The fate of a judged finding, whatever its class: what a pass records under its id is that
   * finding with the status the replies and rulings give it, and it is there unless it is closed.
   */
  lemma FateMeans(q: Request, s: LoopState, open: seq<Id>, f: Finding)
    requires GoodState(s, q.pr) && Decide(q, s, open).Some? && f in s.findings && IsJudged(f)
    ensures f.id.Some?
    ensures forall g :: g in Decide(q, s, open).value.findings && g.id == f.id ==> g == FateOf(q, s, f)
    ensures IsOpen(StatusAfter(q, s, f)) ==> FateOf(q, s, f) in Decide(q, s, open).value.findings
  {
    hide StatusAfter, Uncapped, Decide, GoodState, NextStep;
    FateIsBuilt(q, s, open, f);
    RecordedFrom(q, s, open);
    var fs := Uncapped(q, s, open);
    forall g | g in Capped(fs) && g.id == f.id ensures g == FateOf(q, s, f) {
      SameIdSameFinding(fs, g, FateOf(q, s, f));
    }
  }

  /** In every run. */
  lemma EveryFindingsFate(run: seq<Moment>, k: nat, v: Verdict, f: Finding)
    requires IsRun(run) && k < |run| && Appends(run[k], v) && f in run[k].state.findings && IsJudged(f)
    ensures f.id.Some?
    ensures forall g :: g in v.findings && g.id == f.id ==> g == FateOf(run[k].event.q, run[k].state, f)
    ensures IsOpen(StatusAfter(run[k].event.q, run[k].state, f)) ==>
      FateOf(run[k].event.q, run[k].state, f) in v.findings
  {
    hide Decide, GoodState, StatusAfter;
    RecordedIsDecided(run, k, v);
    FateMeans(run[k].event.q, run[k].state, run[k].open, f);
  }

  // ---------------------------------------------------------------- whose words count

  /** The judge of the `n`-th reply may speak of the finding: the diff could be read, and it saw the
      place, or, where that is in no judged file, was quoted its window. */
  ghost predicate MaySpeakOf(q: Request, n: nat, f: Finding)
    requires n < |q.judgement.replies|
  {
    && q.judgement.readable
    && match Resolve(f.file, q.judgement.judgedFiles)
       case Missing => f.id.Some? && f.id.value in q.judgement.excerpted
       case Ambiguous => false
       case At(path) => WasShown(SightOf(q, n), path, f.line)
  }

  lemma KnownPlace(q: Request, s: LoopState, f: Finding)
    requires GoodState(s, q.pr) && f in s.findings && IsJudged(f)
    ensures f.id.Some? && f.id.value in Known(s) && Known(s)[f.id.value] == (f.file, f.line)
  {
    assert f in Earlier(s);
    EarlierAreNumbered(s, q.pr);
    var g :| g in Earlier(s) && g.id == Some(f.id.value) && Known(s)[f.id.value] == (g.file, g.line);
    SameIdSameFinding(s.findings, f, g);
  }

  lemma HeldToSight(q: Request, s: LoopState, n: nat)
    requires n < |q.judgement.replies|
    ensures var r := WithinPart(q.judgement.replies[n], Known(s).Keys, q.judgement.judgedFiles);
      && r.sight == Some(SightOf(q, n))
      && (r.verdict.Some? <==> q.judgement.replies[n].reply.verdict.Some?)
      && (r.verdict.Some? ==> r.verdict.value.previous == q.judgement.replies[n].reply.verdict.value.previous)
  {
  }

  lemma MayAnswerMeans(q: Request, s: LoopState, n: nat, f: Finding)
    requires GoodState(s, q.pr) && f in s.findings && IsJudged(f) && n < |q.judgement.replies|
    ensures f.id.Some? && f.id.value in Known(s)
    ensures var j := q.judgement;
      MayAnswer(Some(SightOf(q, n)), f.id.value, Known(s), j.judgedFiles, j.readable, j.excerpted) <==>
        MaySpeakOf(q, n, f)
  {
    hide Resolve, Known, GoodState;
    KnownPlace(q, s, f);
  }

  /**
   * An answer to a finding on record counts exactly when the reply holds it and its judge may speak
   * of the finding: none other counts, and none of these is lost.
   */
  lemma AnswerCountsWhen(q: Request, s: LoopState, n: nat, f: Finding, status: AnswerStatus)
    requires GoodState(s, q.pr) && f in s.findings && IsJudged(f) && n < |q.judgement.replies|
    ensures f.id.Some?
    ensures Answers(q, s, n, f.id.value, status) <==>
      && q.judgement.replies[n].reply.verdict.Some?
      && Answer(F(f.id.value), status) in q.judgement.replies[n].reply.verdict.value.previous
      && MaySpeakOf(q, n, f)
  {
    hide MayAnswer, MaySpeakOf, WithinPart, Known, GoodState;
    MayAnswerMeans(q, s, n, f);
    HeldToSight(q, s, n);
  }

  /** An answer to a carry-forward counts whenever a reply holds it. */
  lemma CarryAnswerCounts(q: Request, s: LoopState, n: nat, i: Id, status: AnswerStatus)
    requires n < |q.judgement.replies|
    ensures HeardFrom(q, s, n).Some? <==> q.judgement.replies[n].reply.verdict.Some?
    ensures HeardFrom(q, s, n).Some? ==>
      (Answer(CF(i), status) in HeardFrom(q, s, n).value.previous <==>
         Answer(CF(i), status) in q.judgement.replies[n].reply.verdict.value.previous)
  {
    hide MayAnswer, WithinPart, Known;
    HeldToSight(q, s, n);
  }

  /** A claim under an id of the record counts exactly when its judge may speak of that finding. */
  lemma RepeatCountsWhen(q: Request, s: LoopState, n: nat, f: Finding, g: Finding)
    requires GoodState(s, q.pr) && f in s.findings && IsJudged(f) && n < |q.judgement.replies| && g.id == f.id
    ensures Reports(q, s, n, g) <==> Says(q, n, g) && MaySpeakOf(q, n, f)
  {
    hide MayAnswer, MaySpeakOf, WithinPart, Known, GoodState, Resolve;
    MayAnswerMeans(q, s, n, f);
    HeldToSight(q, s, n);
    RepeatPassesThePart(q, s, n, g);
  }

  lemma RepeatPassesThePart(q: Request, s: LoopState, n: nat, g: Finding)
    requires n < |q.judgement.replies| && g.id.Some? && g.id.value in Known(s)
    ensures var r := WithinPart(q.judgement.replies[n], Known(s).Keys, q.judgement.judgedFiles);
      (r.verdict.Some? && g in r.verdict.value.findings) <==> Says(q, n, g)
  {
    hide Resolve, Known, MayAnswer;
    var p, known := q.judgement.replies[n], Known(s).Keys;
    if p.reply.verdict.Some? && p.readable {
      var fs := p.reply.verdict.value.findings;
      var r := WithinPart(p, known, q.judgement.judgedFiles).verdict.value.findings;
      if k :| 0 <= k < |fs| && fs[k] == g {
        assert r[k] == g;
      }
      if k :| 0 <= k < |r| && r[k] == g {
        assert fs[k] == g;
      }
    }
  }

  /** The words a judge did not have in front of it are demoted to. */
  function Doubted(f: Finding): Finding {
    f.(severity := Important, klass := Some(Note), evidence := f.evidence + " [not in the part this judge read]")
  }

  /** A new claim counts in its own words when its judge had the place in front of it, and else as an
      important note that says so. */
  lemma NewClaimCountsAs(q: Request, s: LoopState, n: nat, f: Finding)
    requires Says(q, n, f) && !(f.id.Some? && f.id.value in Known(s))
    ensures Reports(q, s, n, if f.file == Description || HadInFront(q, n, f) then f else Doubted(f))
  {
    hide Says, HadInFront, Known, WithinPart, Reports;
    ClaimPassesThePart(q, s, n, f);
    PassedIsReported(q, s, n, if f.file == Description || HadInFront(q, n, f) then f else Doubted(f));
  }

  lemma ClaimPassesThePart(q: Request, s: LoopState, n: nat, f: Finding)
    requires Says(q, n, f) && !(f.id.Some? && f.id.value in Known(s))
    ensures n < |q.judgement.replies|
    ensures var r := WithinPart(q.judgement.replies[n], Known(s).Keys, q.judgement.judgedFiles);
      && r.verdict.Some?
      && (if f.file == Description || HadInFront(q, n, f) then f else Doubted(f)) in r.verdict.value.findings
  {
    hide Resolve, Known;
    var p, known := q.judgement.replies[n], Known(s).Keys;
    var fs := p.reply.verdict.value.findings;
    var k :| 0 <= k < |fs| && fs[k] == f;
    var r := WithinPart(p, known, q.judgement.judgedFiles);
    if p.readable {
      assert r.verdict.value.findings[k]
          == SeenOrDemoted(f, r.sight, known, q.judgement.judgedFiles, p.outsideIsUnseen);
    }
  }

  lemma PassedIsReported(q: Request, s: LoopState, n: nat, g: Finding)
    requires n < |q.judgement.replies| && !(g.id.Some? && g.id.value in Known(s))
    requires var r := WithinPart(q.judgement.replies[n], Known(s).Keys, q.judgement.judgedFiles);
      r.verdict.Some? && g in r.verdict.value.findings
    ensures Reports(q, s, n, g)
  {
    hide WithinPart, Known, Resolve;
  }
}
