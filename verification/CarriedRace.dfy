/** A run the gate rejects though no ruling was recorded in it: an approval carried to a new head. */
module CarriedRace {
  import opened Wrappers
  import opened Sequences
  import opened Findings
  import opened Carry
  import opened Rounds
  import opened Service
  import opened Runs
  import opened ExamplePasses
  import Gate

  /** A claim the plan hands on to the code. */
  function HandedOn(): Finding {
    Finding(Important, Path("f"), Some(1), Said("t"), "e", None, Some(CarryForward), New)
  }

  function CodeQ(): Request { PassOf(2, "h1", Code, [], 1, 2) }
  function PlanQ(): Request { PassOf(1, "h2", SpecPlan, [HandedOn()], 3, 4) }
  function CodeV(): Verdict { QuietVerdict(CodeQ(), 1) }
  function PlanV(): Verdict { ClaimVerdict(PlanQ(), 1, [HandedOn()]) }
  function CopyV(): Verdict { Carried(CodeV(), "h3", 6, 6) }

  /** The ledger after the first `n` events. */
  function LedgerAt(n: nat): World {
    if n == 0 then World([], [])
    else if n == 1 then World([CodeV()], [])
    else if n == 2 then World([CodeV(), PlanV()], [])
    else World([CodeV(), PlanV(), CopyV()], [])
  }

  function QAt(n: nat): Request {
    if n == 0 then CodeQ() else PlanQ()
  }

  function EventAt(n: nat): Event {
    if n < 2 then Event.Pass(QAt(n)) else Event.CarryOver(0, "h3", 6, 6)
  }

  lemma NothingOpenAtFirst()
    ensures OpenRead(LedgerAt(0), CodeQ()) == []
  {
    HasMember(OpenList([], [], REPO, Some(2)));
  }

  lemma CodeIsReviewed()
    ensures Review(CodeQ(), [], []) == Some(CodeV())
  {
    hide StateFor, Decide, OpenList;
    NothingOpenAtFirst();
    QuietState([], [], REPO, 2);
    QuietPass(CodeQ(), StateFor([], [], REPO, 2));
  }

  lemma PlanIsReviewed()
    ensures Review(PlanQ(), [CodeV()], []) == Some(PlanV())
  {
    hide StateFor, Decide, CodeV, RulingsBefore, ClaimVerdict;
    NothingRead([CodeV()], PlanQ());
    VerdictsAre();
    NoState([CodeV()], [], REPO, 1);
    PlanState(StateFor([CodeV()], [], REPO, 1));
    ClaimPass(PlanQ(), StateFor([CodeV()], [], REPO, 1), [HandedOn()]);
  }

  lemma PlanState(s: LoopState)
    requires s == StateFrom([], [], 0, RulingsOf([], REPO, 1))
    ensures s.findings == [] && !s.awaiting && s.highest == 0 && s.judged == 0
  {
  }

  lemma VerdictsAre()
    ensures CodeV().pr == 2 && CodeV().at == 2 && CodeV().sha == "h1" && CodeV().repo == REPO && CodeV().approve
    ensures CodeV().carried.None? && CodeV().findings == [] && SpendsRound(CodeV()) && PlanV().pr == 1
    ensures Gate.IsApprovingCode(CodeV()) && Accounted(CodeV()) == CarryForwards([], [])
    ensures PlanV().at == 4 && PlanV().sha == "h2" && PlanV().repo == REPO && PlanV().accounting == None
    ensures PlanV().findings == [Fresh(HandedOn(), Id(1, 1), SpecPlan)] && PlanV().approve
  {
  }

  lemma TwoPassesHappen()
    ensures forall n :: 0 <= n < 2 ==>
      Enabled(LedgerAt(n), EventAt(n)) && LedgerAt(n + 1) == Next(LedgerAt(n), EventAt(n))
  {
    hide Review, Enabled, Next, CodeV, PlanV;
    CodeIsReviewed();
    PlanIsReviewed();
    VerdictsAre();
    PassHappens(LedgerAt(0), CodeQ(), CodeV());
    PassHappens(LedgerAt(1), PlanQ(), PlanV());
  }

  lemma CopyHappens()
    ensures Enabled(LedgerAt(2), EventAt(2)) && LedgerAt(3) == Next(LedgerAt(2), EventAt(2))
  {
    hide CodeV, PlanV;
    VerdictsAre();
  }

  ghost function MomentAt(n: nat): Moment {
    Moment(LedgerAt(n), EventAt(n), StateRead(LedgerAt(n), QAt(n)), OpenRead(LedgerAt(n), QAt(n)), LedgerAt(n + 1))
  }

  ghost function TheRun(): seq<Moment> {
    seq(3, n requires 0 <= n < 3 => MomentAt(n))
  }

  lemma MomentHappens(n: nat)
    requires n < 3 && Enabled(LedgerAt(n), EventAt(n)) && LedgerAt(n + 1) == Next(LedgerAt(n), EventAt(n))
    ensures Happens(MomentAt(n))
  {
    hide Enabled, Next, LedgerAt, StateRead, OpenRead;
  }

  lemma LedgerStarts()
    ensures LedgerAt(0) == World([], [])
  {
  }

  lemma TheRunIsARun()
    ensures IsRun(TheRun())
  {
    hide Enabled, Next, LedgerAt, EventAt, StateRead, OpenRead;
    TwoPassesHappen();
    CopyHappens();
    var run := TheRun();
    forall k | 0 <= k < |run| ensures Happens(run[k]) {
      MomentHappens(k);
    }
    LedgerStarts();
  }

  lemma FinalLedger()
    ensures |TheRun()| == 3 && TheRun()[2].after == LedgerAt(3)
  {
    hide StateRead, OpenRead, LedgerAt;
  }

  /** The plan's approval opens a carry-forward. */
  lemma PlanOpens()
    ensures IsOpenCarryForward([CodeV(), PlanV()], [], REPO, Some(2), Id(1, 1))
  {
    hide CodeV, PlanV;
    VerdictsAre();
    var f := Fresh(HandedOn(), Id(1, 1), SpecPlan);
    assert PlanV() in [CodeV(), PlanV()] && f in PlanV().findings && !IsMechanical(f);
    assert OpensByVerdict([CodeV(), PlanV()], REPO, Id(1, 1));
  }

  /** The code's pass never read it. */
  lemma PlanOpensLate()
    ensures var vs := LedgerAt(3).verdicts;
      Id(1, 1) in Gate.OpenBefore(vs, [], 2) && Id(1, 1) !in Gate.OpenWhenRead(vs, [], 0) && Gate.IsSourceOf(vs, 0, 2)
  {
    hide CodeV, PlanV, IsOpenCarryForward, OpenSet, Origin;
    VerdictsAre();
    CopyLeadsBack();
    PlanOpens();
    NothingOpen();
    var vs := LedgerAt(3).verdicts;
    assert vs[..2] == [CodeV(), PlanV()] && vs[..0] == [];
  }

  lemma CopyLeadsBack()
    ensures Origin(CopyV(), [CodeV(), PlanV()]) == CodeV()
  {
    hide Origin, CodeV, PlanV;
    VerdictsAre();
    var none: seq<Verdict> := [];
    assert [CodeV(), PlanV()] == none + [CodeV()] + [PlanV()];
    OriginBack(CopyV(), none + [CodeV()], PlanV());
    OriginBack(CopyV(), none, CodeV());
    OwnOrigin(CodeV(), none);
  }

  lemma NothingOpen()
    ensures !IsOpenCarryForward([], [], REPO, Some(2), Id(1, 1))
  {
  }

  /**
   * A legal run the gate rejects without a ruling in it: an approved code pull request moves to a
   * new head after a plan's approval opened a carry-forward, and the copy repeats the old accounting.
   */
  lemma GateRejectsACopy()
    ensures IsRun(TheRun()) && |TheRun()| == 3
    ensures var w := TheRun()[2].after; w.rulings == [] && !Gate.GatePasses(w.verdicts, w.rulings)
  {
    hide Gate.GatePasses, Gate.OpenBefore, Gate.OpenWhenRead, TheRun, IsRun, Happens, Gate.IsSourceOf, CodeV, PlanV;
    TheRunIsARun();
    FinalLedger();
    VerdictsAre();
    PlanOpensLate();
    Gate.GatePassesOnCarried(TheRun(), 2);
  }
}
